/** How an outdated process comes to its end, and what the transfer counter is worth. */
module Drain {
  import opened Steps
  import opened Protocol
  import opened Accounting
  import opened Service

  // ---------------------------------------------------------------- draining

  /** The record of `p` has quit monitoring a port that has been updated. */
  ghost predicate Quit(s: Sys, p: Pid) {
    HasRecord(s, p) && !Monitors(s.procs[p]) && VersionOf(s, p) < s.st.version
  }

  /** Connections of `p` that a step closes: the peer of an internal one, or a client of the
      application. */
  ghost function Closes(s: Sys, step: Step, p: Pid): nat {
    if Enabled(s, step)
       && ((step.HangUp? && step.o == p)
           || (step.CloseClient? && step.p == p && step.client in s.procs[p].rec.value.fds))
    then 1 else 0
  }

  ghost function ClosesIn(s: Sys, steps: seq<Step>, p: Pid): nat
    decreases |steps|
  {
    if steps == [] then 0 else Closes(s, steps[0], p) + ClosesIn(Next(s, steps[0]), steps[1..], p)
  }

  /** The application of `p` accepts clients only on descriptors that its event call reported;
      after the record quit, the call reports the port no more. */
  predicate NoLateAccept(steps: seq<Step>, p: Pid) {
    forall i :: 0 <= i < |steps| ==> !(steps[i].AcceptClient? && steps[i].p == p)
  }

  lemma OpenInHandshake(s: Sys, step: Step, p: Pid)
    requires HasRecord(s, p) && ProcShape(s, s.procs[p]) && Enabled(s, step) && Handshakes(step)
    requires !step.BindFirst? && !Monitors(s.procs[p])
    ensures var s' := Apply(s, step);
            HasRecord(s', p) && Open(s'.procs[p].rec.value) + Closes(s, step, p) == Open(s.procs[p].rec.value)
  {
    hide AddressTaken, Count, Where, Detectable;
    if step.HangUp? && step.o == p {
      assert Apply(s, step).procs[p].rec.value.comfds == s.procs[p].rec.value.comfds - {step.p};
    }
  }

  lemma OpenOtherwise(s: Sys, step: Step, p: Pid)
    requires HasRecord(s, p) && Enabled(s, step) && Allowed(Basic, s, step) && !Handshakes(step)
    requires !(step.AcceptClient? && step.p == p)
    ensures var s' := Apply(s, step);
            HasRecord(s', p) && Open(s'.procs[p].rec.value) + Closes(s, step, p) == Open(s.procs[p].rec.value)
  {
    hide AddressTaken, Count, Where, Detectable;
    if step.CloseClient? && step.p == p {
      assert Apply(s, step).procs[p].rec.value.fds == s.procs[p].rec.value.fds - {step.client};
    }
  }

  lemma QuitStays(s: Sys, step: Step, p: Pid)
    requires Quit(s, p) && ProcShape(s, s.procs[p]) && Enabled(s, step) && Allowed(Basic, s, step) && !step.BindFirst?
    ensures Quit(Apply(s, step), p)
  {
    hide AddressTaken, Count, Where, Detectable, Open;
  }

  lemma DrainStep(s: Sys, step: Step, p: Pid)
    requires Quit(s, p) && Enabled(s, step) && Allowed(Basic, s, step)
    requires !step.BindFirst? && !(step.AcceptClient? && step.p == p)
    requires forall q :: q in s.procs ==> ProcShape(s, s.procs[q])
    ensures var s' := Apply(s, step);
            Quit(s', p) && Open(s'.procs[p].rec.value) + Closes(s, step, p) == Open(s.procs[p].rec.value)
  {
    hide Apply;
    QuitStays(s, step, p);
    if Handshakes(step) { OpenInHandshake(s, step, p); } else { OpenOtherwise(s, step, p); }
  }

  /** The drain measure: from the moment a record has quit, the number of its open connections
      falls by one with every close and by nothing else, and it never grows. So detection accepts
      the process exactly when all of them are closed, and then for good. */
  lemma {:induction false} DrainMeasure(s: Sys, steps: seq<Step>, p: Pid)
    requires Orderliness(s) && s.started && Quit(s, p)
    requires Legal(Orderly, s, steps) && NoLateAccept(steps, p)
    ensures var s' := Exec(s, steps);
            && Quit(s', p)
            && Open(s'.procs[p].rec.value) + ClosesIn(s, steps, p) == Open(s.procs[p].rec.value)
            && (Detectable(s'.st, s'.procs[p]) <==> ClosesIn(s, steps, p) == Open(s.procs[p].rec.value))
    decreases |steps|
  {
    if steps != [] {
      if Enabled(s, steps[0]) {
        ServedMeansTaken(s);
        DrainStep(s, steps[0], p);
        OneServiceHistory(s, steps[0]);
        OrderlyStep(s, steps[0]);
      }
      assert forall i :: 0 <= i < |steps| - 1 ==> steps[1..][i] == steps[i + 1];
      DrainMeasure(Next(s, steps[0]), steps[1..], p);
    }
  }

  // ---------------------------------------------------------------- clients

  /** `p` has client `c`, and has not ended by itself. */
  ghost predicate Serves(s: Sys, p: Pid, c: Client) {
    && HasRecord(s, p) && c in s.procs[p].rec.value.fds
    && (s.procs[p].phase.Running? || s.procs[p].phase.Killed?)
  }

  /** The application of `p` closes neither the client nor the port. */
  predicate Keeps(steps: seq<Step>, p: Pid, c: Client) {
    forall i :: 0 <= i < |steps| ==> steps[i] != CloseClient(p, c) && steps[i] != CloseBound(p)
  }

  lemma StillListed(s: Sys, step: Step, p: Pid, c: Client)
    requires Shape(s) && Serves(s, p, c) && Enabled(s, step) && step != CloseClient(p, c) && step != CloseBound(p)
    ensures HasRecord(Apply(s, step), p) && c in Apply(s, step).procs[p].rec.value.fds
  {
    hide AddressTaken, Count, Where, Detectable, Unlock, Monitor, TryLock;
    assert ProcShape(s, s.procs[p]);
  }

  lemma ServesStep(s: Sys, step: Step, p: Pid, c: Client)
    requires Shape(s) && Serves(s, p, c) && Enabled(s, step) && step != CloseClient(p, c) && step != CloseBound(p)
    ensures Serves(Apply(s, step), p, c)
  {
    hide AddressTaken, Count, Where, Shape, ProcShape, Unlock, Monitor, TryLock, Respond;
    StillListed(s, step, p, c);
    var fds := s.procs[p].rec.value.fds;
    assert |fds| > 0;
  }

  /** No update disturbs a client: from the moment it is accepted until the application closes it,
      whatever all processes do, its process keeps it and does not take itself for drained, however
      outdated it is. Only the kill of its group could end the process (`GroupKillIsSafe`). */
  lemma {:induction false} ClientIsServed(s: Sys, steps: seq<Step>, p: Pid, c: Client)
    requires Shape(s) && Enabled(s, AcceptClient(p, c)) && Keeps(steps, p, c)
    ensures Serves(Exec(Apply(s, AcceptClient(p, c)), steps), p, c)
  {
    ShapeKept(s, AcceptClient(p, c));
    ServedOn(Apply(s, AcceptClient(p, c)), steps, p, c);
  }

  lemma {:induction false} ServedOn(s: Sys, steps: seq<Step>, p: Pid, c: Client)
    requires Shape(s) && Serves(s, p, c) && Keeps(steps, p, c)
    ensures Serves(Exec(s, steps), p, c)
    decreases |steps|
  {
    if steps != [] {
      if Enabled(s, steps[0]) {
        ServesStep(s, steps[0], p, c);
        ShapeKept(s, steps[0]);
      }
      assert forall i :: 0 <= i < |steps| - 1 ==> steps[1..][i] == steps[i + 1];
      ServedOn(Next(s, steps[0]), steps[1..], p, c);
    }
  }

  /** Closing a new client undoes its acceptance: the one adds just the client to the process's own
      clients, the other takes just it away. */
  lemma ClientRoundTrip(s: Sys, p: Pid, c: Client)
    requires Enabled(s, AcceptClient(p, c)) && c !in s.procs[p].rec.value.fds
    ensures var s1 := Apply(s, AcceptClient(p, c));
            && Open(s1.procs[p].rec.value) == Open(s.procs[p].rec.value) + 1
            && s1.procs[p].rec.value.comfds == s.procs[p].rec.value.comfds
            && Enabled(s1, CloseClient(p, c)) && Apply(s1, CloseClient(p, c)) == s
  {
    var r := s.procs[p].rec.value;
    assert r.fds + {c} - {c} == r.fds;
    var s1 := Apply(s, AcceptClient(p, c));
    assert Apply(s1, CloseClient(p, c)).procs == s.procs;
  }

  // ---------------------------------------------------------------- the transfer ledger

  /** Quits of records that had answered no request: each takes one from the counter that none
      had put there. */
  ghost function UnpaidQuits(s: Sys, steps: seq<Step>): nat
    decreases |steps|
  {
    if steps == [] then 0
    else (if Enabled(s, steps[0]) && steps[0].MonitorRecord?
             && Quits(s.st, s.procs[steps[0].p].rec.value.flags) && !Flagged(s.procs[steps[0].p]) then 1 else 0)
         + UnpaidQuits(Next(s, steps[0]), steps[1..])
  }

  lemma LedgerStep(s: Sys, step: Step)
    requires Orderliness(s) && s.stray == 0 && (!s.started ==> s.deficit == 0)
    requires Enabled(s, step) && Allowed(Orderly, s, step)
    ensures var s' := Apply(s, step);
            && s'.stray == 0 && (!s'.started ==> s'.deficit == 0)
            && s'.deficit == s.deficit + UnpaidQuits(s, [step])
  {
    hide ProcShape;
    assert UnpaidQuits(Next(s, step), [step][1..]) == 0;
    if step.BindFirst? {
      FirstBindOpens(s, step.p);
      assert forall q :: q in s.procs ==> OneHistory(s, s.procs[q]);
      var s1 := Apply(s, step);
      assert Where(s1.procs, Flagged) == {};
    } else {
      VersionMoves(s, step);
    }
  }

  lemma {:induction false} LedgerRun(s: Sys, steps: seq<Step>)
    requires Orderliness(s) && s.stray == 0 && (!s.started ==> s.deficit == 0) && Legal(Orderly, s, steps)
    ensures Exec(s, steps).stray == 0 && Exec(s, steps).deficit == s.deficit + UnpaidQuits(s, steps)
    decreases |steps|
  {
    if steps != [] {
      if Enabled(s, steps[0]) {
        OrderlyStep(s, steps[0]);
        LedgerStep(s, steps[0]);
        assert UnpaidQuits(Next(s, steps[0]), [steps[0]][1..]) == 0;
      }
      LedgerRun(Next(s, steps[0]), steps[1..]);
    }
  }

  /** The transfer ledger: the shared counter is the number of records that count themselves as
      transferring, minus the quits that had answered nothing. It is the exact, non-negative
      number of transfers exactly when every quitter had answered a request first; and the lock
      is asked for (counter above zero) exactly when transfers outnumber unpaid quits. */
  lemma TransferLedger(steps: seq<Step>)
    requires Legal(Orderly, INITIAL, steps)
    ensures var s := Exec(INITIAL, steps);
            var transfers, unpaid := Count(s.procs, Flagged), UnpaidQuits(INITIAL, steps);
            && s.st.transfer == transfers - unpaid
            && (s.st.transfer == transfers <==> unpaid == 0)
            && (s.st.transfer > 0 <==> transfers > unpaid)
  {
    InitialOrder();
    OrderlyRun(INITIAL, steps);
    LedgerRun(INITIAL, steps);
  }
}
