/** Where the promises end: concrete runs of the library that break one rule of the application
    and lose one promise. Processes 1 and 2 are group 1, process 3 is group 2; 1 binds first. */
module Limits {
  import opened Options
  import opened Steps
  import opened Protocol

  ghost predicate NobodyServes(s: Sys) {
    s.started && forall w :: !(Runs(s, w) && Monitors(s.procs[w]))
  }

  lemma {:induction false} ExecConcat(s: Sys, a: seq<Step>, b: seq<Step>)
    ensures Exec(s, a + b) == Exec(Exec(s, a), b)
    decreases |a|
  {
    if a == [] {
      assert a + b == b;
    } else {
      assert (a + b)[1..] == a[1..] + b;
      ExecConcat(Next(s, a[0]), a[1..], b);
    }
  }

  /** `R` holds of every state of every run: it holds at the start and every step keeps it. */
  ghost predicate Inductive(R: Sys -> bool) {
    R(INITIAL) && forall s, step :: R(s) ==> R(Next(s, step))
  }

  lemma Then(R: Sys -> bool, s: Sys, step: Step, s': Sys)
    requires Inductive(R) && R(s) && Next(s, step) == s'
    ensures R(s')
  {
  }

  /** The pending kill of a group outside which nobody monitors. */
  lemma Killing(R: Sys -> bool, s: Sys, p: Pid) returns (bad: Sys)
    requires Inductive(R)
    requires R(s) && s.started
    requires p in s.procs && s.procs[p].phase == Leaving(true)
    requires forall q :: q in s.procs && s.procs[q].gid != s.procs[p].gid ==> !Monitors(s.procs[q])
    ensures R(bad) && NobodyServes(bad)
  {
    bad := Next(s, KillGroup(p));
    Then(R, s, KillGroup(p), bad);
    assert bad.procs == Kill(s, p);
  }

  // A process that only exists, one that runs its event loop, and a record without connections.
  function Fresh(g: Gid): Proc { Proc(g, false, Running, Idle, None, false, false) }

  function Serving(g: Gid, r: Record): Proc { Proc(g, true, Running, Bound, Some(r), false, false) }

  function Rec(version: int, monitoring: bool, transfer: bool, blocking: bool, own: Pid, comfds: set<Pid>): Record {
    Record(Flags(version, monitoring, false, transfer), blocking, Socket(own), Socket(1), Listener(1), comfds, {})
  }

  /** The port is bound by process 1; the lock is free and was never lost. */
  function World(st: Status, procs: map<Pid, Proc>, workers: map<Gid, int>, deficit: nat, history: seq<Gid>): Sys {
    Sys(st, 1, procs, workers, 1, true, 0, deficit, 0, history)
  }

  function Opened(): Sys {
    World(Status(1, 0, 0),
          map[1 := Proc(1, false, Running, Bound, Some(Rec(0, true, false, false, 1, {})), false, false), 2 := Fresh(1)],
          map[1 := 0], 0, [1])
  }

  lemma Opening(R: Sys -> bool)
    requires Inductive(R)
    ensures R(Opened())
  {
    var s1 := INITIAL.(procs := map[1 := Fresh(1)], workers := map[1 := 0]);
    Then(R, INITIAL, Spawn(1, 1), s1);
    var s2 := s1.(procs := map[1 := Fresh(1), 2 := Fresh(1)]);
    Then(R, s1, Fork(1, 2), s2);
    assert Where(Opened().procs, Flagged) == {};
    assert Opened().procs == s2.procs[1 := Opened().procs[1]];
    Then(R, s2, BindFirst(1), Opened());
  }

  // ---------------------------------------------------------------- an unbound worker

  /** A sibling that never binds enters an event loop, has no record that could hold it back,
      terminates at once as the last worker, and takes the serving process with it. */
  lemma UnboundWorkerKillsTheServer(R: Sys -> bool) returns (bad: Sys)
    requires Inductive(R)
    ensures R(bad) && NobodyServes(bad)
  {
    Opening(R);
    var one := Opened().procs[1];
    var s1 := Opened().(procs := map[1 := one, 2 := Fresh(1).(live := true)], workers := map[1 := 1]);
    Then(R, Opened(), Activate(2, false), s1);
    var s2 := s1.(procs := map[1 := one, 2 := s1.procs[2].(phase := Detected)]);
    Then(R, s1, Detect(2), s2);
    var s3 := s2.(procs := map[1 := one, 2 := s1.procs[2].(phase := Leaving(true))], workers := map[1 := 0]);
    Then(R, s2, Decrement(2), s3);
    bad := Killing(R, s3, 2);
  }

  // ---------------------------------------------------------------- an update by group 2

  /** Process 1 has served process 3's request, if `asked`, and process 3 is at `three`. */
  function Pair(st: Status, asked: bool, b: bool, open: set<Pid>, two: Proc, three: Proc, w1: int, w2: int): Sys {
    World(st, map[1 := Serving(1, Rec(0, true, asked, b, 1, open)), 2 := two, 3 := three], map[1 := w1, 2 := w2], 0, [1])
  }

  /** The version-1 process that inherited the port from process 1. */
  function Heir(b: bool): Proc { Serving(2, Rec(1, true, false, b, 3, {})).(checked := true) }

  /** Process 3 connects to process 1, */
  lemma Ask(R: Sys -> bool, two: Proc, w: int, b: bool)
    requires Inductive(R)
    requires R(World(Status(1, 0, 0), map[1 := Serving(1, Rec(0, true, false, b, 1, {})), 2 := two], map[1 := w], 0, [1]))
    ensures R(Pair(Status(1, 0, 0), false, b, {}, two, Fresh(2).(request := Connecting), w, 0))
  {
    var s0 := World(Status(1, 0, 0), map[1 := Serving(1, Rec(0, true, false, b, 1, {})), 2 := two], map[1 := w], 0, [1]);
    var s1 := Pair(Status(1, 0, 0), false, b, {}, two, Fresh(2), w, 0);
    Then(R, s0, Spawn(3, 2), s1);
    assert Holds(s1.procs[1]);
    Then(R, s1, Connect(3), Pair(Status(1, 0, 0), false, b, {}, two, Fresh(2).(request := Connecting), w, 0));
  }

  /** is accepted */
  lemma Accept(R: Sys -> bool, two: Proc, w: int, b: bool)
    requires Inductive(R)
    requires R(Pair(Status(1, 0, 0), false, b, {}, two, Fresh(2).(request := Connecting), w, 0))
    ensures R(Pair(Status(1, 0, 0), false, b, {3}, two, Fresh(2).(request := Accepted), w, 0))
  {
    var s2 := Pair(Status(1, 0, 0), false, b, {}, two, Fresh(2).(request := Connecting), w, 0);
    assert {} + {3} == {3};
    Then(R, s2, AcceptRequest(1, 3), Pair(Status(1, 0, 0), false, b, {3}, two, Fresh(2).(request := Accepted), w, 0));
  }

  /** and answered, */
  lemma Reply(R: Sys -> bool, two: Proc, w: int, b: bool)
    requires Inductive(R)
    requires R(Pair(Status(1, 0, 0), false, b, {3}, two, Fresh(2).(request := Accepted), w, 0))
    ensures R(Pair(Status(1, 0, 1), true, b, {3}, two, Fresh(2).(request := Granted(Socket(1), Listener(1))), w, 0))
  {
    var s3 := Pair(Status(1, 0, 0), false, b, {3}, two, Fresh(2).(request := Accepted), w, 0);
    Then(R, s3, Answer(1, 3), Pair(Status(1, 0, 1), true, b, {3}, two, Fresh(2).(request := Granted(Socket(1), Listener(1))), w, 0));
  }

  /** has a record one version ahead, */
  lemma Receive(R: Sys -> bool, two: Proc, w: int, b: bool)
    requires Inductive(R)
    requires R(Pair(Status(1, 0, 1), true, b, {3}, two, Fresh(2).(request := Granted(Socket(1), Listener(1))), w, 0))
    ensures R(Pair(Status(1, 0, 1), true, b, {}, two, Newcomer(), w, 0))
  {
    var s4 := Pair(Status(1, 0, 1), true, b, {3}, two, Fresh(2).(request := Granted(Socket(1), Listener(1))), w, 0);
    var s5 := Pair(Status(1, 0, 1), true, b, {3}, two, Newcomer(), w, 0);
    Then(R, s4, Inherit(3), s5);
    assert {3} - {3} == {};
    Then(R, s5, HangUp(1, 3), Pair(Status(1, 0, 1), true, b, {}, two, Newcomer(), w, 0));
  }

  function Newcomer(): Proc { Fresh(2).(request := Bound, rec := Some(Rec(1, true, false, false, 3, {}))) }

  /** enters its event loop */
  lemma Enter(R: Sys -> bool, two: Proc, w: int, b: bool)
    requires Inductive(R)
    requires R(Pair(Status(1, 0, 1), true, b, {}, two, Newcomer(), w, 0))
    ensures R(Pair(Status(1, 0, 1), true, b, {}, two, Heir(b).(checked := false), w, 1))
  {
    var s6 := Pair(Status(1, 0, 1), true, b, {}, two, Newcomer(), w, 0);
    Then(R, s6, Activate(3, b), Pair(Status(1, 0, 1), true, b, {}, two, Heir(b).(checked := false), w, 1));
  }

  /** and bumps: an update of the port that process 1 serves. `two` is whatever process 2 is
      meanwhile. */
  lemma Update(R: Sys -> bool, two: Proc, w: int, b: bool)
    requires Inductive(R)
    requires R(World(Status(1, 0, 0), map[1 := Serving(1, Rec(0, true, false, b, 1, {})), 2 := two], map[1 := w], 0, [1]))
    ensures R(Pair(Status(2, 1, 1), true, b, {}, two, Heir(b), w, 1).(history := [1, 2]))
  {
    hide AddressTaken;
    Ask(R, two, w, b);
    Accept(R, two, w, b);
    Reply(R, two, w, b);
    Receive(R, two, w, b);
    Enter(R, two, w, b);
    assert [1] + [2] == [1, 2];
    Then(R, Pair(Status(1, 0, 1), true, b, {}, two, Heir(b).(checked := false), w, 1), MonitorRecord(3),
         Pair(Status(2, 1, 1), true, b, {}, two, Heir(b), w, 1).(history := [1, 2]));
  }

  // ---------------------------------------------------------------- the counter

  /** Two workers, one request. The worker that answered nothing quits first and takes back the
      other's count: the counter is zero, so nobody asks for the lock, while a process that is
      still transferring and its successor both monitor the blocking socket. */
  lemma UnpaidQuitDisablesTheLock(R: Sys -> bool) returns (s: Sys)
    requires Inductive(R)
    ensures && R(s)
            && s.st.transfer == 0
            && Runs(s, 1) && Monitors(s.procs[1]) && Flagged(s.procs[1]) && s.procs[1].rec.value.blocking
            && Runs(s, 3) && Monitors(s.procs[3]) && s.procs[3].rec.value.blocking
  {
    var r := Rec(0, true, false, false, 1, {});
    var bound := Proc(1, false, Running, Bound, Some(r), false, false);
    BindAndFork(R, bound);
    TwoWorkers(R, World(Status(1, 0, 0), map[1 := bound, 2 := bound], map[1 := 0], 0, [1]), bound);
    var live := Serving(1, r.(blocking := true));
    Update(R, live, 2, true);
    s := QuitUnpaid(R, live);
  }

  lemma BindAndFork(R: Sys -> bool, bound: Proc)
    requires Inductive(R)
    requires bound == Proc(1, false, Running, Bound, Some(Rec(0, true, false, false, 1, {})), false, false)
    ensures R(World(Status(1, 0, 0), map[1 := bound, 2 := bound], map[1 := 0], 0, [1]))
  {
    var s1 := INITIAL.(procs := map[1 := Fresh(1)], workers := map[1 := 0]);
    Then(R, INITIAL, Spawn(1, 1), s1);
    var s2 := World(Status(1, 0, 0), map[1 := bound], map[1 := 0], 0, [1]);
    assert Where(s2.procs, Flagged) == {};
    Then(R, s1, BindFirst(1), s2);
    Then(R, s2, Fork(1, 2), s2.(procs := map[1 := bound, 2 := bound]));
  }

  lemma QuitUnpaid(R: Sys -> bool, live: Proc) returns (s: Sys)
    requires Inductive(R) && live == Serving(1, Rec(0, true, false, true, 1, {}))
    requires R(Pair(Status(2, 1, 1), true, true, {}, live, Heir(true), 2, 1).(history := [1, 2]))
    ensures && R(s)
            && s.st.transfer == 0
            && Runs(s, 1) && Monitors(s.procs[1]) && Flagged(s.procs[1]) && s.procs[1].rec.value.blocking
            && Runs(s, 3) && Monitors(s.procs[3]) && s.procs[3].rec.value.blocking
  {
    var s4 := Pair(Status(2, 1, 1), true, true, {}, live, Heir(true), 2, 1).(history := [1, 2]);
    s := Next(s4, MonitorRecord(2));
    Then(R, s4, MonitorRecord(2), s);
  }

  lemma TwoWorkers(R: Sys -> bool, s: Sys, bound: Proc)
    requires Inductive(R)
    requires bound == Proc(1, false, Running, Bound, Some(Rec(0, true, false, false, 1, {})), false, false)
    requires s == World(Status(1, 0, 0), map[1 := bound, 2 := bound], map[1 := 0], 0, [1])
    requires R(s)
    ensures var live := Serving(1, Rec(0, true, false, true, 1, {}));
            R(World(Status(1, 0, 0), map[1 := live, 2 := live], map[1 := 2], 0, [1]))
  {
    var live := Serving(1, Rec(0, true, false, true, 1, {}));
    var s1 := s.(procs := map[1 := live, 2 := bound], workers := map[1 := 1]);
    Then(R, s, Activate(1, true), s1);
    var s2 := s1.(procs := map[1 := live, 2 := live], workers := map[1 := 2]);
    Then(R, s1, Activate(2, true), s2);
  }

  // ---------------------------------------------------------------- an outdated group that binds again

  /** Process 1, outdated and drained. */
  function Gone(): Proc { Serving(1, Rec(0, false, false, false, 1, {})).(checked := true) }

  /** Group 1's last worker has seen zero and is about to kill its group. */
  function Doomed(): Sys {
    World(Status(2, 1, 0),
          map[1 := Gone().(phase := Leaving(true)), 2 := Fresh(1),
              3 := Heir(false)],
          map[1 := 0, 2 := 1], 0, [1, 2])
  }

  lemma Dooming(R: Sys -> bool)
    requires Inductive(R)
    ensures R(Doomed())
  {
    Opening(R);
    var s1 := Opened().(procs := map[1 := Serving(1, Rec(0, true, false, false, 1, {})), 2 := Fresh(1)], workers := map[1 := 1]);
    Then(R, Opened(), Activate(1, false), s1);
    Update(R, Fresh(1), 1, false);
    Quitting(R);
    LastWorkerGoes(R);
  }

  lemma Quitting(R: Sys -> bool)
    requires Inductive(R)
    requires R(Pair(Status(2, 1, 1), true, false, {}, Fresh(1), Heir(false), 1, 1).(history := [1, 2]))
    ensures R(Leaver(Gone()))
  {
    Then(R, Pair(Status(2, 1, 1), true, false, {}, Fresh(1), Heir(false), 1, 1).(history := [1, 2]), MonitorRecord(1), Leaver(Gone()));
  }

  lemma LastWorkerGoes(R: Sys -> bool)
    requires Inductive(R) && R(Leaver(Gone()))
    ensures R(Doomed())
  {
    Detecting(R);
    Then(R, Leaver(Gone().(phase := Detected)), Decrement(1), Doomed());
  }

  function Leaver(one: Proc): Sys {
    World(Status(2, 1, 0), map[1 := one, 2 := Fresh(1), 3 := Heir(false)], map[1 := 1, 2 := 1], 0, [1, 2])
  }

  lemma Detecting(R: Sys -> bool)
    requires Inductive(R) && R(Leaver(Gone()))
    ensures R(Leaver(Gone().(phase := Detected)))
  {
    Then(R, Leaver(Gone()), Detect(1), Leaver(Gone().(phase := Detected)));
  }

  /** Process 3, which has answered process 2. */
  function Answerer(): Proc { Serving(2, Rec(1, true, true, false, 3, {2})).(checked := true) }

  /** Process 2, of the outdated group, with a record one version ahead; `b`: its socket blocks. */
  function Returner(b: bool): Proc { Serving(1, Rec(2, true, false, b, 2, {})) }

  function Returning(st: Status, two: Proc, three: Proc, w1: int, history: seq<Gid>): Sys {
    World(st, map[1 := Doomed().procs[1], 2 := two, 3 := three], map[1 := w1, 2 := 1], 0, history)
  }

  /** Process 2 asks process 3 for the port, */
  lemma Requesting(R: Sys -> bool)
    requires Inductive(R)
    ensures R(Returning(Status(2, 1, 1), Fresh(1).(request := Granted(Socket(1), Listener(1))), Answerer(), 0, [1, 2]))
  {
    Dooming(R);
    var s0 := Doomed();
    assert Holds(s0.procs[3]);
    var s1 := Returning(Status(2, 1, 0), Fresh(1).(request := Connecting), s0.procs[3], 0, [1, 2]);
    Then(R, s0, Connect(2), s1);
    var three := Serving(2, Rec(1, true, false, false, 3, {2})).(checked := true);
    var s2 := Returning(Status(2, 1, 0), Fresh(1).(request := Accepted), three, 0, [1, 2]);
    assert {} + {2} == {2};
    Then(R, s1, AcceptRequest(3, 2), s2);
    Then(R, s2, Answer(3, 2), Returning(Status(2, 1, 1), Fresh(1).(request := Granted(Socket(1), Listener(1))), Answerer(), 0, [1, 2]));
  }

  /** gets the version after the current one, */
  function Inheriting(): Sys {
    Returning(Status(2, 1, 1), Returner(false).(live := false), Answerer(), 0, [1, 2])
  }

  lemma Inheritance(R: Sys -> bool)
    requires Inductive(R)
    ensures R(Inheriting())
  {
    Requesting(R);
    Then(R, Returning(Status(2, 1, 1), Fresh(1).(request := Granted(Socket(1), Listener(1))), Answerer(), 0, [1, 2]), Inherit(2), Inheriting());
  }

  /** enters its event loop, */
  lemma Starting(R: Sys -> bool, b: bool)
    requires Inductive(R)
    ensures R(Returning(Status(2, 1, 1), Returner(b), Answerer(), 1, [1, 2]))
  {
    Inheritance(R);
    Then(R, Inheriting(), Activate(2, b), Returning(Status(2, 1, 1), Returner(b), Answerer(), 1, [1, 2]));
  }

  /** and bumps, all while the kill of its group is pending. */
  function Returned(b: bool): Sys {
    Returning(Status(1, 2, 1), Returner(b).(checked := true), Answerer(), 1, [1, 2, 1])
  }

  lemma Bumping(R: Sys -> bool, b: bool)
    requires Inductive(R)
    ensures R(Returned(b))
  {
    Starting(R, b);
    assert [1, 2] + [1] == [1, 2, 1];
    Then(R, Returning(Status(2, 1, 1), Returner(b), Answerer(), 1, [1, 2]), MonitorRecord(2), Returned(b));
  }

  /** Now the former server quits, and the pending kill arrives: nobody serves. */
  lemma OutdatedGroupEndsTheService(R: Sys -> bool) returns (bad: Sys)
    requires Inductive(R)
    ensures R(bad) && NobodyServes(bad)
  {
    Bumping(R, false);
    var three := Serving(2, Rec(1, false, false, false, 3, {2})).(checked := true);
    var s7 := Returning(Status(1, 2, 0), Returner(false).(checked := true), three, 1, [1, 2, 1]);
    Then(R, Returned(false), MonitorRecord(3), s7);
    bad := Killing(R, s7, 1);
  }

  /** Or process 2 takes the lock first, */
  function Holding(): Sys {
    Returning(Status(1, 2, 1), Returner(true).(checked := true, rec := Some(Record(Flags(2, true, true, false), true, Socket(2), Socket(1), Listener(1), {}, {}))),
              Answerer(), 1, [1, 2, 1]).(fdSem := 0)
  }

  lemma Taking(R: Sys -> bool)
    requires Inductive(R)
    ensures R(Holding())
  {
    Bumping(R, true);
    Then(R, Returned(true), Lock(2), Holding());
  }

  /** and the pending kill takes the lock along: nobody holds it and nobody can take it any more. */
  lemma KillTakesTheLock(R: Sys -> bool) returns (bad: Sys)
    requires Inductive(R)
    ensures R(bad) && bad.fdSem == 0 && forall p :: p in bad.procs ==> !Locked(bad.procs[p])
  {
    Taking(R);
    bad := Next(Holding(), KillGroup(1));
    Then(R, Holding(), KillGroup(1), bad);
    assert bad.procs == Kill(Holding(), 1);
  }

  // ---------------------------------------------------------------- a worker that closes the port

  /** Processes 1 and 2 had the port; `one` and `two` is where they are. */
  function Siblings(one: Proc, two: Proc, w: int): Sys {
    World(Status(1, 0, 0), map[1 := one, 2 := two], map[1 := w], 0, [1])
  }

  function Bounded(): Proc { Proc(1, false, Running, Bound, Some(Rec(0, true, false, false, 1, {})), false, false) }

  /** Process 1 closed the port in its event loop. */
  function Closer(phase: Phase): Proc { Proc(1, true, phase, Bound, None, true, false) }

  lemma Closing(R: Sys -> bool)
    requires Inductive(R)
    ensures R(Siblings(Closer(Running), Bounded(), 1))
  {
    BindAndFork(R, Bounded());
    var s1 := Siblings(Bounded().(live := true), Bounded(), 1);
    Then(R, Siblings(Bounded(), Bounded(), 0), Activate(1, false), s1);
    Then(R, s1, CloseBound(1), Siblings(Closer(Running), Bounded(), 1));
  }

  /** Without a record it passes detection at once, as the last worker, */
  lemma CloserLeaves(R: Sys -> bool)
    requires Inductive(R)
    ensures R(Siblings(Closer(Leaving(true)), Bounded(), 0))
  {
    Closing(R);
    Then(R, Siblings(Closer(Running), Bounded(), 1), Detect(1), Siblings(Closer(Detected), Bounded(), 1));
    Then(R, Siblings(Closer(Detected), Bounded(), 1), Decrement(1), Siblings(Closer(Leaving(true)), Bounded(), 0));
  }

  function Starter(checked: bool, locked: bool): Proc {
    Proc(1, true, Running, Bound, Some(Record(Flags(0, true, locked, false), true, Socket(1), Socket(1), Listener(1), {}, {})), false, checked)
  }

  lemma StarterEnters(R: Sys -> bool)
    requires Inductive(R)
    ensures R(Siblings(Closer(Leaving(true)), Starter(true, false), 1))
  {
    CloserLeaves(R);
    var s1 := Siblings(Closer(Leaving(true)), Starter(false, false), 1);
    Then(R, Siblings(Closer(Leaving(true)), Bounded(), 0), Activate(2, true), s1);
    Then(R, s1, MonitorRecord(2), Siblings(Closer(Leaving(true)), Starter(true, false), 1));
  }

  lemma StarterLocks(R: Sys -> bool)
    requires Inductive(R)
    ensures R(Siblings(Closer(Leaving(true)), Starter(true, true), 1).(fdSem := 0))
  {
    StarterEnters(R);
    Then(R, Siblings(Closer(Leaving(true)), Starter(true, false), 1), Lock(2),
         Siblings(Closer(Leaving(true)), Starter(true, true), 1).(fdSem := 0));
  }

  /** while its sibling of the same version enters its event loop and takes the lock. No update is
      going on, and the socket was closed while it was unlocked. */
  lemma ClosedPortLosesTheLock(R: Sys -> bool) returns (bad: Sys)
    requires Inductive(R)
    ensures R(bad) && bad.fdSem == 0 && forall p :: p in bad.procs ==> !Locked(bad.procs[p])
  {
    StarterLocks(R);
    var s := Siblings(Closer(Leaving(true)), Starter(true, true), 1).(fdSem := 0);
    bad := Next(s, KillGroup(1));
    Then(R, s, KillGroup(1), bad);
    assert bad.procs == Kill(s, 1);
  }

  // ---------------------------------------------------------------- these states are reached

  ghost predicate Reached(s: Sys) { exists steps :: Exec(INITIAL, steps) == s }

  /** Each of the five ends a run from the initial state. */
  lemma {:induction false} EachLimitIsReached()
    returns (unbound: seq<Step>, unpaid: seq<Step>, outdated: seq<Step>, lost: seq<Step>, closed: seq<Step>)
    ensures NobodyServes(Exec(INITIAL, unbound)) && NobodyServes(Exec(INITIAL, outdated))
    ensures var s := Exec(INITIAL, unpaid);
            s.st.transfer == 0 && exists p :: Runs(s, p) && Monitors(s.procs[p]) && Flagged(s.procs[p])
    ensures var s := Exec(INITIAL, lost);
            s.fdSem == 0 && forall p :: p in s.procs ==> !Locked(s.procs[p])
    ensures var s := Exec(INITIAL, closed);
            s.fdSem == 0 && forall p :: p in s.procs ==> !Locked(s.procs[p])
  {
    var R := (s: Sys) => Reached(s);
    RunsAreInductive(R);
    var a := UnboundWorkerKillsTheServer(R);
    unbound :| Exec(INITIAL, unbound) == a;
    var b := UnpaidQuitDisablesTheLock(R);
    unpaid :| Exec(INITIAL, unpaid) == b;
    var c := OutdatedGroupEndsTheService(R);
    outdated :| Exec(INITIAL, outdated) == c;
    var d := KillTakesTheLock(R);
    lost :| Exec(INITIAL, lost) == d;
    var e := ClosedPortLosesTheLock(R);
    closed :| Exec(INITIAL, closed) == e;
  }

  lemma RunsAreInductive(R: Sys -> bool)
    requires forall s :: R(s) <==> Reached(s)
    ensures Inductive(R)
  {
    assert Exec(INITIAL, []) == INITIAL;
    forall s, step | R(s) ensures R(Next(s, step)) {
      var steps :| Exec(INITIAL, steps) == s;
      ExecConcat(INITIAL, steps, [step]);
      assert Exec(Next(s, step), [step][1..]) == Next(s, step);
    }
  }
}
