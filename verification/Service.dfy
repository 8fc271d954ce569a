/** Update without disruption: the claims about orderly runs. From the first bind on somebody
    serves the port in its current version, there is one history of versions, and everybody
    serves the socket that was bound first. */
module Service {
  import opened Protocol
  import opened Accounting

  /** One history: versions reach one past the current one, and every record, living or not,
      denotes the socket and the listener of the first bind. */
  ghost predicate OneHistory(s: Sys, pr: Proc) {
    && (pr.rec.Some? ==> s.started
                         && 0 <= pr.rec.value.flags.version <= s.st.version + 1
                         && pr.rec.value.shadow == Socket(s.root) && pr.rec.value.listener == Listener(s.root))
    && (pr.request.Granted? ==> pr.request == Granted(Socket(s.root), Listener(s.root)))
    && !pr.leaked
    && (pr.live ==> pr.rec.Some?)
    && (!s.started ==> pr.rec.None? && pr.request.Idle? && pr.phase.Running?)
    && (Passed(pr) ==> pr.rec.Some? && pr.rec.value.flags.version < s.st.version)
  }

  /** Some process runs, monitors the port in its current version, and is hit by no pending kill. */
  ghost predicate Served(s: Sys) { s.started ==> SomebodyReady(s, s.st.version) }

  ghost predicate Orderliness(s: Sys) {
    && Inv(s)
    && s.st.version >= 0
    && (forall p :: p in s.procs ==> OneHistory(s, s.procs[p]))
    && Served(s)
  }

  lemma ServedMeansTaken(s: Sys)
    requires Orderliness(s) && s.started
    ensures AddressTaken(s)
  {
    var w :| Ready(s, w, s.st.version);
    assert Holds(s.procs[w]);
  }

  lemma HistoryKeptAt(s: Sys, step: Step, p: Pid)
    requires Enabled(s, step) && Allowed(Basic, s, step)
    requires step.BindFirst? ==> !s.started
    requires forall q :: q in s.procs ==> ProcShape(s, s.procs[q]) && OneHistory(s, s.procs[q])
    requires p in Apply(s, step).procs && s.st.version >= 0
    ensures OneHistory(Apply(s, step), Apply(s, step).procs[p])
  {
    if Handshakes(step) {
      HandshakeKeepsHistory(s, step, p);
    } else if Ends(step) {
      EndKeepsHistory(s, step, p);
    } else {
      OtherStepKeepsHistory(s, step, p);
    }
  }

  lemma HandshakeKeepsHistory(s: Sys, step: Step, p: Pid)
    requires Enabled(s, step) && Allowed(Basic, s, step) && Handshakes(step)
    requires step.BindFirst? ==> !s.started
    requires forall q :: q in s.procs ==> ProcShape(s, s.procs[q]) && OneHistory(s, s.procs[q])
    requires p in Apply(s, step).procs && s.st.version >= 0
    ensures OneHistory(Apply(s, step), Apply(s, step).procs[p])
  {
  }

  predicate Ends(step: Step) {
    step.Detect? || step.Decrement? || step.KillGroup? || step.Exit? || step.MonitorRecord?
  }

  lemma EndKeepsHistory(s: Sys, step: Step, p: Pid)
    requires Enabled(s, step) && Allowed(Basic, s, step) && Ends(step)
    requires forall q :: q in s.procs ==> ProcShape(s, s.procs[q]) && OneHistory(s, s.procs[q])
    requires p in Apply(s, step).procs
    ensures OneHistory(Apply(s, step), Apply(s, step).procs[p])
  {
    hide AddressTaken, Count, Where;
    assert p in s.procs && ProcShape(s, s.procs[p]) && OneHistory(s, s.procs[p]);
  }

  lemma OtherStepKeepsHistory(s: Sys, step: Step, p: Pid)
    requires Enabled(s, step) && Allowed(Basic, s, step) && !Handshakes(step) && !Ends(step)
    requires forall q :: q in s.procs ==> ProcShape(s, s.procs[q]) && OneHistory(s, s.procs[q])
    requires p in Apply(s, step).procs
    ensures OneHistory(Apply(s, step), Apply(s, step).procs[p])
  {
    var p0 := Origin(step, p);
    if p0 in s.procs { assert ProcShape(s, s.procs[p0]) && OneHistory(s, s.procs[p0]); }
  }

  /** The version only moves when a pending record bumps it, and then by one. */
  lemma VersionMoves(s: Sys, step: Step)
    requires Enabled(s, step) && !step.BindFirst?
    ensures var s' := Apply(s, step);
            && s'.st.version == (if BumpStep(s, step) then s.st.version + 1 else s.st.version)
            && s'.st.pgid == (if BumpStep(s, step) then s.procs[step.p].gid else s.st.pgid)
            && s'.history == (if BumpStep(s, step) then s.history + [s.procs[step.p].gid] else s.history)
            && s'.root == s.root && s'.started == s.started
  {
  }

  /** A record that is not new has the version and group it had. */
  lemma RecordStays(s: Sys, step: Step, p: Pid)
    requires Enabled(s, step) && HasRecord(Apply(s, step), p)
    requires !((step.BindFirst? || step.Inherit?) && p == step.p)
    ensures var p0 := Origin(step, p);
            && HasRecord(s, p0) && VersionOf(s, p0) == VersionOf(Apply(s, step), p)
            && s.procs[p0].gid == Apply(s, step).procs[p].gid
  {
  }

  // ---------------------------------------------------------------- when a step breaks the service

  lemma NoNewDoom(s: Sys, step: Step, g: Gid)
    requires Enabled(s, step) && Doomed(Apply(s, step), g)
    requires step.Decrement? ==> s.procs[step.p].gid != g || s.workers[g] != 1
    ensures Doomed(s, g)
  {
    var s' := Apply(s, step);
    var q :| q in s'.procs && s'.procs[q].gid == g && s'.procs[q].phase == Leaving(true);
    assert q in s.procs && s.procs[q].gid == g && s.procs[q].phase == Leaving(true);
  }

  /** Being ready in the current version, or in the next, ends with nothing but the doom of one's
      group. */
  lemma ReadyKept(s: Sys, step: Step, w: Pid, v: int)
    requires Ready(s, w, v) && v >= s.st.version && ProcShape(s, s.procs[w])
    requires Enabled(s, step) && Allowed(Basic, s, step) && !step.BindFirst?
    requires step.Decrement? ==> s.procs[step.p].gid != s.procs[w].gid || s.workers[s.procs[w].gid] != 1
    ensures Ready(Apply(s, step), w, v)
  {
    var s', g := Apply(s, step), s.procs[w].gid;
    if step.KillGroup? { assert s.procs[step.p].gid != g; }
    assert w in s'.procs && s'.procs[w].gid == g && Runs(s', w) && Monitors(s'.procs[w]) && VersionOf(s', w) == v;
    if Doomed(s', g) { NoNewDoom(s, step, g); }
  }

  lemma BreakLeavesNobody(s: Sys, step: Step)
    requires Enabled(s, step) && Allowed(Basic, s, step) && Breaks(s, step) && s.started
    requires forall p :: p in s.procs ==> ProcShape(s, s.procs[p]) && OneHistory(s, s.procs[p])
    ensures !Served(Apply(s, step)) && Apply(s, step).started
  {
    var s' := Apply(s, step);
    forall w ensures !Ready(s', w, s'.st.version) {
      if Ready(s', w, s'.st.version) { ReadyBefore(s, step, w); }
    }
  }

  lemma DoomStays(s: Sys, step: Step, g: Gid)
    requires Enabled(s, step) && Doomed(s, g) && (BumpStep(s, step) || step.Decrement?)
    ensures Doomed(Apply(s, step), g)
  {
    var s' := Apply(s, step);
    var q :| q in s.procs && s.procs[q].gid == g && s.procs[q].phase == Leaving(true);
    assert q in s'.procs && s'.procs[q].gid == g && s'.procs[q].phase == Leaving(true);
  }

  lemma DecrementDooms(s: Sys, p: Pid)
    requires Enabled(s, Decrement(p)) && s.workers[s.procs[p].gid] == 1
    ensures Doomed(Apply(s, Decrement(p)), s.procs[p].gid)
  {
    var s' := Apply(s, Decrement(p));
    assert s'.procs[p].gid == s.procs[p].gid && s'.procs[p].phase == Leaving(true);
  }

  lemma ReadyBefore(s: Sys, step: Step, w: Pid)
    requires Enabled(s, step) && Ready(Apply(s, step), w, Apply(s, step).st.version)
    requires BumpStep(s, step) || (step.Decrement? && s.workers[s.procs[step.p].gid] == 1)
    ensures Ready(s, w, Apply(s, step).st.version)
    ensures step.Decrement? ==> s.procs[w].gid != s.procs[step.p].gid
  {
    var g := s.procs[w].gid;
    if Doomed(s, g) { DoomStays(s, step, g); }
    if step.Decrement? { DecrementDooms(s, step.p); }
  }

  /** Who is ready once a step that does not break the service is done. */
  lemma NextReady(s: Sys, step: Step) returns (w: Pid)
    requires Orderliness(s) && s.started && Enabled(s, step) && Allowed(Orderly, s, step)
    ensures Ready(s, w, if BumpStep(s, step) then s.st.version + 1 else s.st.version)
    ensures step.Decrement? ==> s.procs[step.p].gid != s.procs[w].gid || s.workers[s.procs[w].gid] != 1
  {
    hide Doomed, Apply;
    if BumpStep(s, step) {
      w :| Ready(s, w, s.st.version + 1);
    } else if step.Decrement? && s.workers[s.procs[step.p].gid] == 1 {
      w :| Ready(s, w, s.st.version) && s.procs[w].gid != s.procs[step.p].gid;
    } else {
      w :| Ready(s, w, s.st.version);
    }
  }

  /** The exact condition for one step: it keeps the service if and only if it does not break it. */
  lemma ServedIff(s: Sys, step: Step)
    requires Orderliness(s) && s.started && Enabled(s, step) && Allowed(Basic, s, step)
    ensures Served(Apply(s, step)) <==> !Breaks(s, step)
  {
    hide Doomed, Count, LockBalance, Ledger, WorkersExact, ProcShape, OneHistory;
    ServedMeansTaken(s);
    if Breaks(s, step) {
      BreakLeavesNobody(s, step);
    } else {
      VersionMoves(s, step);
      var w := NextReady(s, step);
      assert ProcShape(s, s.procs[w]);
      ReadyKept(s, step, w, if BumpStep(s, step) then s.st.version + 1 else s.st.version);
    }
  }

  lemma HistoryKept(s: Sys, step: Step)
    requires Orderliness(s) && Enabled(s, step) && Allowed(Basic, s, step) && !step.BindFirst?
    ensures var s' := Apply(s, step); forall p :: p in s'.procs ==> OneHistory(s', s'.procs[p])
  {
    var s' := Apply(s, step);
    forall p | p in s'.procs ensures OneHistory(s', s'.procs[p]) { HistoryKeptAt(s, step, p); }
  }

  lemma OrderlyStep(s: Sys, step: Step)
    requires Orderliness(s) && Enabled(s, step) && Allowed(Orderly, s, step)
    ensures Orderliness(Apply(s, step))
  {
    StepKeeps(s, step);
    if step.BindFirst? {
      FirstBindOpens(s, step.p);
    } else {
      VersionMoves(s, step);
      HistoryKept(s, step);
      if s.started { ServedIff(s, step); }
    }
  }

  lemma FirstBindOpens(s: Sys, p: Pid)
    requires Orderliness(s) && Enabled(s, BindFirst(p))
    ensures !s.started
    ensures var s' := Apply(s, BindFirst(p));
            && s'.st.version == 0 && Ready(s', p, 0)
            && (forall q :: q in s'.procs ==> OneHistory(s', s'.procs[q]))
  {
    if s.started { ServedMeansTaken(s); }
    var s' := Apply(s, BindFirst(p));
    forall q | q in s'.procs ensures OneHistory(s', s'.procs[q]) { HistoryKeptAt(s, BindFirst(p), q); }
    assert forall q :: q in s.procs ==> s.procs[q].phase.Running? && s.procs[q].rec.None? by {
      forall q | q in s.procs ensures s.procs[q].phase.Running? && s.procs[q].rec.None? {
        assert OneHistory(s, s.procs[q]);
      }
    }
  }

  lemma {:induction false} OrderlyRun(s: Sys, steps: seq<Step>)
    requires Orderliness(s) && Legal(Orderly, s, steps)
    ensures Orderliness(Exec(s, steps))
    decreases |steps|
  {
    if steps != [] {
      if Enabled(s, steps[0]) { OrderlyStep(s, steps[0]); }
      OrderlyRun(Next(s, steps[0]), steps[1..]);
    }
  }

  lemma InitialOrder()
    ensures Orderliness(INITIAL)
  {
    InitialInv();
  }

  /** Somebody who runs monitors the port in its current version. */
  ghost predicate InService(s: Sys) {
    exists w :: Runs(s, w) && Monitors(s.procs[w]) && VersionOf(s, w) == s.st.version
  }

  /** No service gap: in every orderly run, from the first bind on, a process that is still
      running monitors the port in its current version, so the communication address stays
      taken and the branch that resets the port's memory stays closed to every process. */
  lemma NoServiceGap(steps: seq<Step>)
    requires Legal(Orderly, INITIAL, steps)
    ensures var s := Exec(INITIAL, steps);
            s.started ==> InService(s) && AddressTaken(s) && forall p :: !Enabled(s, BindFirst(p))
  {
    InitialOrder();
    OrderlyRun(INITIAL, steps);
    var s := Exec(INITIAL, steps);
    if s.started { ServedMeansTaken(s); }
  }

  // ---------------------------------------------------------------- exactly when there is no gap

  predicate Kills(steps: seq<Step>) { forall i :: 0 <= i < |steps| ==> steps[i].KillGroup? }

  /** Whichever of the pending kills come first, somebody serves. */
  ghost predicate SurvivesKills(s: Sys) {
    s.started ==> forall kills :: Kills(kills) ==> InService(Exec(s, kills))
  }

  lemma {:induction false} ReadyThroughKills(s: Sys, kills: seq<Step>, w: Pid)
    requires Kills(kills) && Ready(s, w, s.st.version)
    ensures InService(Exec(s, kills))
    decreases |kills|
  {
    if kills != [] {
      var step := kills[0];
      assert forall i :: 0 <= i < |kills| - 1 ==> kills[1..][i] == kills[i + 1];
      if Enabled(s, step) {
        assert s.procs[step.p].gid != s.procs[w].gid;
        var s' := Apply(s, step);
        assert s'.procs[w] == s.procs[w];
        if Doomed(s', s.procs[w].gid) { NoNewDoom(s, step, s.procs[w].gid); }
      }
      ReadyThroughKills(Next(s, step), kills[1..], w);
    }
  }

  function Killers(s: Sys): set<Pid> { set p | p in s.procs && s.procs[p].phase == Leaving(true) }

  lemma KillIsDone(s: Sys, q: Pid)
    requires q in Killers(s)
    ensures var s' := Next(s, KillGroup(q));
            && |Killers(s')| < |Killers(s)| && s'.st == s.st && s'.started == s.started
            && forall w :: Runs(s', w) ==> w in s.procs && s'.procs[w] == s.procs[w] && s.procs[w].gid != s.procs[q].gid
                                           && (Doomed(s, s.procs[w].gid) ==> Doomed(s', s.procs[w].gid))
  {
    var s' := Next(s, KillGroup(q));
    assert Killers(s') <= Killers(s) - {q};
    assert |Killers(s) - {q}| == |Killers(s)| - 1;
    SubsetSize(Killers(s'), Killers(s) - {q});
    forall w | Runs(s', w) && Doomed(s, s.procs[w].gid) ensures Doomed(s', s.procs[w].gid) {
      var k :| k in s.procs && s.procs[k].gid == s.procs[w].gid && s.procs[k].phase == Leaving(true);
      assert s'.procs[k] == s.procs[k];
    }
  }

  lemma {:induction false} SubsetSize(a: set<Pid>, b: set<Pid>)
    requires a <= b
    ensures |a| <= |b|
  {
    assert b == a + (b - a);
  }

  /** Run all pending kills: who still runs is in no group that had one. */
  lemma {:induction false} RunKills(s: Sys) returns (kills: seq<Step>)
    ensures Kills(kills) && Exec(s, kills).st == s.st && Exec(s, kills).started == s.started
    ensures forall w :: Runs(Exec(s, kills), w) ==>
      w in s.procs && Exec(s, kills).procs[w] == s.procs[w] && !Doomed(s, s.procs[w].gid)
    decreases |Killers(s)|
  {
    if Killers(s) == {} {
      kills := [];
      forall w | Runs(s, w) ensures !Doomed(s, s.procs[w].gid) {
        assert forall q :: q in s.procs ==> q !in Killers(s);
      }
    } else {
      var q :| q in Killers(s);
      KillIsDone(s, q);
      var rest := RunKills(Next(s, KillGroup(q)));
      kills := [KillGroup(q)] + rest;
      assert kills[1..] == rest;
    }
  }

  /** A process that no pending kill will hit is what it takes to survive all of them. */
  lemma SurvivesIff(s: Sys)
    ensures SurvivesKills(s) <==> Served(s)
  {
    if s.started {
      if Served(s) {
        var w :| Ready(s, w, s.st.version);
        forall kills | Kills(kills) ensures InService(Exec(s, kills)) { ReadyThroughKills(s, kills, w); }
      } else {
        var kills := RunKills(s);
        if InService(Exec(s, kills)) {
          var s' := Exec(s, kills);
          var w :| Runs(s', w) && Monitors(s'.procs[w]) && VersionOf(s', w) == s'.st.version;
          assert Ready(s, w, s.st.version);
        }
      }
    }
  }

  /** Every state of the run survives its pending kills. */
  ghost predicate Throughout(s: Sys, steps: seq<Step>)
    decreases |steps|
  {
    SurvivesKills(s) && (steps == [] || Throughout(Next(s, steps[0]), steps[1..]))
  }

  lemma BreakIsAfterStart(s: Sys, step: Step)
    requires Orderliness(s) && Enabled(s, step) && Breaks(s, step)
    ensures s.started
  {
    assert OneHistory(s, s.procs[step.p]);
  }

  lemma {:induction false} GapIff(s: Sys, steps: seq<Step>)
    requires Orderliness(s) && Legal(Basic, s, steps)
    ensures Legal(Orderly, s, steps) <==> Throughout(s, steps)
    decreases |steps|
  {
    SurvivesIff(s);
    if steps != [] {
      var step := steps[0];
      if Enabled(s, step) && Breaks(s, step) {
        BreakIsAfterStart(s, step);
        BreakLeavesNobody(s, step);
        SurvivesIff(Next(s, step));
      } else {
        if Enabled(s, step) { OrderlyStep(s, step); }
        GapIff(Next(s, step), steps[1..]);
      }
    }
  }

  /** The exact condition: when the application keeps the port open and enters event loops only
      with the port bound, somebody serves in every state of the run, whichever pending kills come
      first, if and only if no step of the run breaks the service. */
  lemma NoServiceGapIff(steps: seq<Step>)
    requires Legal(Basic, INITIAL, steps)
    ensures Legal(Orderly, INITIAL, steps) <==> Throughout(INITIAL, steps)
  {
    InitialOrder();
    GapIff(INITIAL, steps);
  }

  /** No early end: in every orderly run a process whose detection succeeded has an outdated record,
      no longer monitors the port, and has no internal and no client connection open. */
  lemma NoEarlyEnd(steps: seq<Step>)
    requires Legal(Orderly, INITIAL, steps)
    ensures var s := Exec(INITIAL, steps);
            forall p :: p in s.procs && Passed(s.procs[p]) ==>
              HasRecord(s, p) && VersionOf(s, p) < s.st.version && !Monitors(s.procs[p]) && Open(s.procs[p].rec.value) == 0
  {
    InitialOrder();
    OrderlyRun(INITIAL, steps);
    var s := Exec(INITIAL, steps);
    forall p | p in s.procs && Passed(s.procs[p])
      ensures HasRecord(s, p) && VersionOf(s, p) < s.st.version && !Monitors(s.procs[p]) && Open(s.procs[p].rec.value) == 0
    {
      EndedProcess(s, p);
    }
  }

  lemma EndedProcess(s: Sys, p: Pid)
    requires Orderliness(s) && p in s.procs && Passed(s.procs[p])
    ensures HasRecord(s, p) && VersionOf(s, p) < s.st.version && !Monitors(s.procs[p]) && Open(s.procs[p].rec.value) == 0
  {
    assert OneHistory(s, s.procs[p]) && ProcShape(s, s.procs[p]);
  }

  /** One service history: after the first bind the version never decreases and moves by at most
      one at a step, and the process whose socket and listener everybody inherits stays the first. */
  lemma OneServiceHistory(s: Sys, step: Step)
    requires Orderliness(s) && s.started && Enabled(s, step)
    ensures var s' := Apply(s, step);
            && s.st.version <= s'.st.version <= s.st.version + 1
            && s'.root == s.root && s'.started
  {
    ServedMeansTaken(s);
    VersionMoves(s, step);
  }

  /** Transitive inheritance: over any number of generations, every record ever made, every
      descriptor under way in a handshake, and every listener still monitored denotes what the
      first process bound; and no record is more than one version ahead. */
  lemma {:induction false} TransitiveInheritance(s: Sys, steps: seq<Step>)
    requires Orderliness(s) && s.started && Legal(Orderly, s, steps)
    ensures var s' := Exec(s, steps);
            && s'.st.version >= s.st.version
            && (forall p :: HasRecord(s', p) ==>
                  && s'.procs[p].rec.value.shadow == Socket(s.root) && s'.procs[p].rec.value.listener == Listener(s.root)
                  && 0 <= VersionOf(s', p) <= s'.st.version + 1)
            && (forall p :: p in s'.procs && s'.procs[p].request.Granted? ==>
                  s'.procs[p].request == Granted(Socket(s.root), Listener(s.root)))
    decreases |steps|
  {
    if steps == [] {
      forall p | HasRecord(s, p) ensures OneHistory(s, s.procs[p]) { }
    } else {
      if Enabled(s, steps[0]) {
        OneServiceHistory(s, steps[0]);
        OrderlyStep(s, steps[0]);
      }
      TransitiveInheritance(Next(s, steps[0]), steps[1..]);
    }
  }
}
