/** When at most one group waits at the next version, versions are generations: the version of a
    record names its process group, and each group moves the port's version exactly once. */
module Generations {
  import opened Protocol
  import opened Accounting
  import opened Service
  import opened Promises

  ghost predicate SameGeneration(s: Sys, p: Pid, q: Pid)
    requires HasRecord(s, p) && HasRecord(s, q)
  {
    VersionOf(s, p) == VersionOf(s, q) <==> s.procs[p].gid == s.procs[q].gid
  }

  ghost predicate Founded(s: Sys, v: int) {
    exists p :: HasRecord(s, p) && VersionOf(s, p) == v
  }

  /** `history[v]` is the group of version `v`; it was appended by the step that bumped to `v`. */
  ghost predicate Coherent(s: Sys) {
    && |s.history| == (if s.started then s.st.version + 1 else 0)
    && (s.started ==> 0 <= s.st.version && s.history[s.st.version] == s.st.pgid)
    && (forall p :: HasRecord(s, p) && 0 <= VersionOf(s, p) < |s.history| ==> s.history[VersionOf(s, p)] == s.procs[p].gid)
    && (forall p, q :: HasRecord(s, p) && HasRecord(s, q) ==> SameGeneration(s, p, q))
    && (forall v :: 0 <= v < |s.history| ==> Founded(s, v))
  }

  lemma FirstGeneration(s: Sys, p: Pid)
    requires Orderliness(s) && Enabled(s, BindFirst(p))
    ensures Coherent(Apply(s, BindFirst(p)))
  {
    hide Count;
    FirstBindOpens(s, p);
    var s' := Apply(s, BindFirst(p));
    assert forall q :: q in s.procs ==> OneHistory(s, s.procs[q]);
    assert HasRecord(s', p) && VersionOf(s', p) == 0;
  }

  lemma HandshakeKeepsRecord(s: Sys, step: Step, p: Pid)
    requires Enabled(s, step) && !step.BindFirst? && Handshakes(step) && HasRecord(s, p) && ProcShape(s, s.procs[p])
    ensures HasRecord(Apply(s, step), p) && VersionOf(Apply(s, step), p) == VersionOf(s, p)
  {
    hide AddressTaken, Count, Where;
  }

  lemma OtherStepKeepsRecord(s: Sys, step: Step, p: Pid)
    requires Enabled(s, step) && Allowed(Basic, s, step) && !Handshakes(step) && HasRecord(s, p)
    ensures HasRecord(Apply(s, step), p) && VersionOf(Apply(s, step), p) == VersionOf(s, p)
  {
    hide AddressTaken, Count, Where;
  }

  lemma FoundedKept(s: Sys, step: Step, v: int)
    requires Enabled(s, step) && !step.BindFirst? && Allowed(Basic, s, step)
    requires forall q :: q in s.procs ==> ProcShape(s, s.procs[q])
    requires Founded(s, v)
    ensures Founded(Apply(s, step), v)
  {
    hide Apply, Enabled;
    var p :| HasRecord(s, p) && VersionOf(s, p) == v;
    if Handshakes(step) { HandshakeKeepsRecord(s, step, p); } else { OtherStepKeepsRecord(s, step, p); }
  }

  lemma InheritedGeneration(s: Sys, p: Pid, q: Pid)
    requires Orderliness(s) && Coherent(s) && s.started
    requires Enabled(s, Inherit(p)) && Allowed(OneSuccessor, s, Inherit(p))
    requires HasRecord(s, q) && q != p
    ensures var s' := Apply(s, Inherit(p)); HasRecord(s', q) && SameGeneration(s', p, q) && SameGeneration(s', q, p)
  {
    hide Inv, Where, Doomed;
    var v := s.st.version;
    assert Founded(s, v);
    var w :| HasRecord(s, w) && VersionOf(s, w) == v;
    assert s.procs[w].gid == s.st.pgid;
    assert SameGeneration(s, w, q);
    assert OneHistory(s, s.procs[q]);
    assert !OutdatedGroup(s, s.procs[p].gid);
    if s.procs[p].gid != s.st.pgid { assert !OtherGroupPending(s, s.procs[p].gid); }
  }

  lemma SameGenerationKept(s: Sys, step: Step, p: Pid, q: Pid)
    requires Orderliness(s) && Coherent(s) && s.started
    requires Enabled(s, step) && Allowed(OneSuccessor, s, step) && !step.BindFirst?
    requires HasRecord(Apply(s, step), p) && HasRecord(Apply(s, step), q)
    ensures SameGeneration(Apply(s, step), p, q)
  {
    if step.Inherit? && (p == step.p || q == step.p) {
      if p != q { InheritedGeneration(s, step.p, if p == step.p then q else p); }
    } else {
      RecordStays(s, step, p);
      RecordStays(s, step, q);
      assert SameGeneration(s, Origin(step, p), Origin(step, q));
    }
  }

  lemma HistoryNamesGroups(s: Sys, step: Step, p: Pid)
    requires Orderliness(s) && Coherent(s) && s.started
    requires Enabled(s, step) && Allowed(OneSuccessor, s, step) && !step.BindFirst?
    requires HasRecord(Apply(s, step), p) && 0 <= VersionOf(Apply(s, step), p) <= Apply(s, step).st.version
    ensures var s' := Apply(s, step);
            |s'.history| == s'.st.version + 1 && s'.history[VersionOf(s', p)] == s'.procs[p].gid
  {
    var s' := Apply(s, step);
    VersionMoves(s, step);
    if !(step.Inherit? && p == step.p) {
      RecordStays(s, step, p);
      if BumpStep(s, step) {
        assert OneHistory(s, s.procs[step.p]);
        assert SameGeneration(s, step.p, p);
      }
    }
  }

  lemma CoherentStep(s: Sys, step: Step)
    requires Orderliness(s) && Coherent(s) && s.started
    requires Enabled(s, step) && Allowed(OneSuccessor, s, step) && !step.BindFirst?
    ensures Coherent(Apply(s, step))
  {
    var s' := Apply(s, step);
    VersionMoves(s, step);
    forall p | HasRecord(s', p) && 0 <= VersionOf(s', p) < |s'.history|
      ensures s'.history[VersionOf(s', p)] == s'.procs[p].gid
    {
      HistoryNamesGroups(s, step, p);
    }
    forall p, q | HasRecord(s', p) && HasRecord(s', q) ensures SameGeneration(s', p, q) {
      SameGenerationKept(s, step, p, q);
    }
    forall v | 0 <= v < |s'.history| ensures Founded(s', v) {
      if v < |s.history| {
        FoundedKept(s, step, v);
      } else {
        var p := step.p;
        assert OneHistory(s, s.procs[p]);
        assert HasRecord(s', p) && VersionOf(s', p) == v;
      }
    }
  }

  /** The rule is exactly what coherence needs: an inheriting bind keeps version and group in
      step if and only if its group is not outdated and, unless the group serves already, no
      other group is waiting. */
  lemma InheritKeepsGenerationsIff(s: Sys, p: Pid)
    requires Orderliness(s) && Coherent(s) && s.started && Enabled(s, Inherit(p))
    ensures var s' := Apply(s, Inherit(p));
            && HasRecord(s', p)
            && ((forall q :: HasRecord(s', q) ==> SameGeneration(s', p, q)) <==> Allowed(OneSuccessor, s, Inherit(p)))
  {
    hide Count, Detectable, WorkersExact;
    var s' := Apply(s, Inherit(p));
    assert !HasRecord(s, p);
    if Allowed(OneSuccessor, s, Inherit(p)) {
      forall q | HasRecord(s', q) ensures SameGeneration(s', p, q) {
        if q != p { InheritedGeneration(s, p, q); }
      }
    } else {
      var g := s.procs[p].gid;
      var q := if OutdatedGroup(s, g)
               then (var q :| HasRecord(s, q) && s.procs[q].gid == g && VersionOf(s, q) < s.st.version; q)
               else (var q :| HasRecord(s, q) && s.procs[q].gid != g && VersionOf(s, q) == s.st.version + 1; q);
      assert HasRecord(s', q) && !SameGeneration(s', p, q);
    }
  }

  /** A group that waits for the next version is not doomed: its records are of one version, and a
      process that leaves is outdated. */
  lemma CoherentBumpsSafely(s: Sys, step: Step)
    requires Orderliness(s) && Coherent(s) && Enabled(s, step)
    ensures SafeBump(s, step)
  {
    if BumpStep(s, step) {
      forall q | q in s.procs && s.procs[q].gid == s.procs[step.p].gid ensures s.procs[q].phase != Leaving(true) {
        assert OneHistory(s, s.procs[q]);
        if HasRecord(s, q) { assert SameGeneration(s, q, step.p); }
      }
    }
  }

  /** A port that nobody has bound has no records. */
  lemma NothingBumpsBefore(s: Sys, step: Step)
    requires Orderliness(s) && !s.started && Enabled(s, step)
    ensures SafeBump(s, step)
  {
    if step.MonitorRecord? { assert OneHistory(s, s.procs[step.p]); }
  }

  lemma CoherenceStep(s: Sys, step: Step)
    requires Steady(s) && (s.started ==> Coherent(s))
    requires Enabled(s, step) && Allowed(OneSuccessor, s, step)
    ensures Allowed(Orderly, s, step) && Steady(Apply(s, step))
    ensures Apply(s, step).started ==> Coherent(Apply(s, step))
    ensures s.started ==> Apply(s, step).started
  {
    if s.started { CoherentBumpsSafely(s, step); } else { NothingBumpsBefore(s, step); }
    SteadyStep(s, step);
    if step.BindFirst? {
      FirstGeneration(s, step.p);
    } else {
      VersionMoves(s, step);
      if s.started { CoherentStep(s, step); }
    }
  }

  lemma {:induction false} CoherentRun(s: Sys, steps: seq<Step>)
    requires Steady(s) && (s.started ==> Coherent(s)) && Legal(OneSuccessor, s, steps)
    ensures Legal(Orderly, s, steps) && Steady(Exec(s, steps))
    ensures Exec(s, steps).started ==> Coherent(Exec(s, steps))
    ensures s.started ==> Exec(s, steps).started
    decreases |steps|
  {
    if steps != [] {
      if Enabled(s, steps[0]) { CoherenceStep(s, steps[0]); }
      CoherentRun(Next(s, steps[0]), steps[1..]);
    }
  }

  /** Group and version coherence of every run with one successor at a time: two records have the
      same version exactly when they are in the same process group, the shared status names the
      group of the current version, and the groups that moved the version are all different,
      one for each version. */
  lemma GroupsAreGenerations(steps: seq<Step>)
    requires Legal(OneSuccessor, INITIAL, steps)
    ensures var s := Exec(INITIAL, steps);
            s.started ==>
              && (forall p, q :: HasRecord(s, p) && HasRecord(s, q) ==>
                    (VersionOf(s, p) == VersionOf(s, q) <==> s.procs[p].gid == s.procs[q].gid))
              && (forall p :: HasRecord(s, p) && VersionOf(s, p) == s.st.version ==> s.procs[p].gid == s.st.pgid)
              && |s.history| == s.st.version + 1
              && (forall i, j :: 0 <= i < j < |s.history| ==> s.history[i] != s.history[j])
  {
    InitialSteady();
    CoherentRun(INITIAL, steps);
    var s := Exec(INITIAL, steps);
    if s.started {
      forall p, q | HasRecord(s, p) && HasRecord(s, q)
        ensures VersionOf(s, p) == VersionOf(s, q) <==> s.procs[p].gid == s.procs[q].gid
      {
        assert SameGeneration(s, p, q);
      }
      forall i, j | 0 <= i < j < |s.history| ensures s.history[i] != s.history[j] {
        DistinctGroups(s, i, j);
      }
    }
  }

  ghost function BumpOf(s: Sys, step: Step): seq<Gid> {
    if Enabled(s, step) && BumpStep(s, step) then [s.procs[step.p].gid] else []
  }

  /** The groups of the steps that bump the version, in order. */
  ghost function Bumpers(s: Sys, steps: seq<Step>): seq<Gid>
    decreases |steps|
  {
    if steps == [] then [] else BumpOf(s, steps[0]) + Bumpers(Next(s, steps[0]), steps[1..])
  }

  ghost predicate NoFirstBind(s: Sys, steps: seq<Step>)
    decreases |steps|
  {
    steps == [] || (!(steps[0].BindFirst? && Enabled(s, steps[0])) && NoFirstBind(Next(s, steps[0]), steps[1..]))
  }

  /** Once the port is bound, nobody binds it first again. */
  lemma {:induction false} NeverRebound(s: Sys, steps: seq<Step>)
    requires Orderliness(s) && s.started && Legal(Orderly, s, steps)
    ensures NoFirstBind(s, steps)
    decreases |steps|
  {
    if steps != [] {
      if Enabled(s, steps[0]) {
        OneServiceHistory(s, steps[0]);
        ServedMeansTaken(s);
        OrderlyStep(s, steps[0]);
      }
      NeverRebound(Next(s, steps[0]), steps[1..]);
    }
  }

  lemma {:induction false} BumpersAreHistory(s: Sys, steps: seq<Step>)
    requires NoFirstBind(s, steps)
    ensures Exec(s, steps).history == s.history + Bumpers(s, steps)
    decreases |steps|
  {
    if steps != [] {
      var s1, rest := Next(s, steps[0]), steps[1..];
      if Enabled(s, steps[0]) { VersionMoves(s, steps[0]); }
      BumpersAreHistory(s1, rest);
      assert s1.history + Bumpers(s1, rest) == s.history + (BumpOf(s, steps[0]) + Bumpers(s1, rest));
    }
  }

  lemma BumpedHistory(s: Sys, steps: seq<Step>)
    requires Steady(s) && Coherent(s) && s.started && Legal(OneSuccessor, s, steps)
    ensures Coherent(Exec(s, steps)) && Exec(s, steps).started
    ensures Exec(s, steps).history == s.history + Bumpers(s, steps)
  {
    CoherentRun(s, steps);
    NeverRebound(s, steps);
    BumpersAreHistory(s, steps);
  }

  /** `b` are the groups that moved the version from `s` to `s'`: pairwise different, one for each
      version reached, and `b[i]` is the group of every record of the version it reached. */
  ghost predicate EachOnce(s: Sys, s': Sys, b: seq<Gid>) {
    && |b| == s'.st.version - s.st.version
    && (forall i, j :: 0 <= i < j < |b| ==> b[i] != b[j])
    && (forall p :: HasRecord(s', p) && s.st.version < VersionOf(s', p) <= s'.st.version ==>
          b[VersionOf(s', p) - s.st.version - 1] == s'.procs[p].gid)
  }

  /** Each new generation bumps exactly once, however many of its processes bind late: the groups
      that bump are pairwise different, there is one for each version reached, and it is the
      group of every record of that version. */
  lemma EachGroupBumpsOnce(s: Sys, steps: seq<Step>)
    requires Steady(s) && Coherent(s) && s.started && Legal(OneSuccessor, s, steps)
    ensures EachOnce(s, Exec(s, steps), Bumpers(s, steps))
  {
    BumpedHistory(s, steps);
    BumpersDiffer(s, Exec(s, steps), Bumpers(s, steps));
  }

  lemma BumpersDiffer(s: Sys, s': Sys, b: seq<Gid>)
    requires Coherent(s) && Coherent(s') && s.started && s'.started && s'.history == s.history + b
    ensures EachOnce(s, s', b)
  {
    var n := |s.history|;
    forall i, j | 0 <= i < j < |b| ensures b[i] != b[j] {
      DistinctGroups(s', n + i, n + j);
      assert s'.history[n + i] == b[i] && s'.history[n + j] == b[j];
    }
    forall p | HasRecord(s', p) && s.st.version < VersionOf(s', p) <= s'.st.version
      ensures b[VersionOf(s', p) - s.st.version - 1] == s'.procs[p].gid
    {
      assert s'.history[VersionOf(s', p)] == s'.procs[p].gid;
    }
  }

  lemma DistinctGroups(s: Sys, i: int, j: int)
    requires Coherent(s) && 0 <= i < j < |s.history|
    ensures s.history[i] != s.history[j]
  {
    assert Founded(s, i) && Founded(s, j);
    var p :| HasRecord(s, p) && VersionOf(s, p) == i;
    var q :| HasRecord(s, q) && VersionOf(s, q) == j;
    assert SameGeneration(s, p, q);
  }
}
