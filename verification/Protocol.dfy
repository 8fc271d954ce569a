/** Any number of processes, in any number of process groups, sharing one port.

    A step is one critical section, one kernel transition on the shared descriptors, or one
    transition of the application that the library observes. Steps of different processes
    interleave freely; in particular a group's last worker leaves in three steps (detection,
    decrement, `killpg`), between which every other process may move. */
module Protocol {
  import opened Options
  import opened Steps

  /** Processes are never reused, so a pid also names what the process opened. */
  type Pid = nat
  type Gid = nat
  type Client = nat

  /** An open file, whatever number it has: the socket that a process created for the port, or the
      listener that it opened on the communication address. */
  datatype File = Socket(of: Pid) | Listener(of: Pid)

  /** `shadow`: the socket that `shadowfd` denotes; `own`: the socket that `fd` denotes;
      `listener`: the listener behind `comfd`, open exactly while monitoring. */
  datatype Record = Record(flags: Flags, blocking: bool, own: File, shadow: File, listener: File,
                           comfds: set<Pid>, fds: set<Client>)

  /** Where a process is in `bind`. A request answered by a process that no longer monitors
      carries a closed `comfd`, so the requester waits forever for its second descriptor. */
  datatype Request = Idle | Connecting | Accepted | Stuck | Granted(shadow: File, listener: File) | Bound

  /** `Leaving(last)`: the group's counter is decremented, `last` when it reached zero. */
  datatype Phase = Running | Detected | Leaving(last: bool) | Exited | Killed

  /** `checked`: the event call under way has run the state handler. */
  datatype Proc = Proc(gid: Gid, live: bool, phase: Phase, request: Request, rec: Option<Record>,
                       leaked: bool, checked: bool)

  /** `lost`, `deficit`, `stray`, `history`, `started` and `root` are bookkeeping that no step reads:
      semaphore units nobody can give back, quits that answered no request, transfer flags
      outside the current count, the group of each version, whether the port was ever bound, and by
      whom first. */
  datatype Sys = Sys(st: Status, fdSem: int, procs: map<Pid, Proc>, workers: map<Gid, int>,
                     root: Pid, started: bool,
                     lost: nat, deficit: nat, stray: int, history: seq<Gid>)

  datatype Step =
    | Spawn(p: Pid, g: Gid)
    | Fork(p: Pid, c: Pid)
    | BindFirst(p: Pid)
    | Connect(p: Pid)
    | AcceptRequest(o: Pid, p: Pid)
    | Answer(o: Pid, p: Pid)
    | Inherit(p: Pid)
    | HangUp(o: Pid, p: Pid)
    | Activate(p: Pid, blocking: bool)
    | MonitorRecord(p: Pid)
    | Detect(p: Pid)
    | Decrement(p: Pid)
    | KillGroup(p: Pid)
    | Exit(p: Pid)
    | Lock(p: Pid)
    | Release(p: Pid)
    | AcceptClient(p: Pid, client: Client)
    | CloseClient(p: Pid, client: Client)
    | CloseBound(p: Pid)

  const INITIAL := Sys(Status(0, 0, 0), 1, map[], map[], 0, false, 0, 0, 0, [])

  // ---------------------------------------------------------------- what a state says

  predicate Alive(pr: Proc) { pr.phase.Running? || pr.phase.Detected? || pr.phase.Leaving? }

  predicate Monitors(pr: Proc) { pr.rec.Some? && pr.rec.value.flags.monitoring }

  /** The process keeps the listening communication socket open. */
  predicate Holds(pr: Proc) { Alive(pr) && (Monitors(pr) || pr.request.Granted? || pr.leaked) }

  ghost predicate AddressTaken(s: Sys) { exists p :: p in s.procs && Holds(s.procs[p]) }

  /** The process is in an event loop and its detection has not succeeded. */
  predicate Working(pr: Proc) { pr.live && (pr.phase.Running? || pr.phase.Detected?) }

  predicate Locked(pr: Proc) { Alive(pr) && pr.rec.Some? && pr.rec.value.flags.locked }

  predicate Flagged(pr: Proc) { pr.rec.Some? && pr.rec.value.flags.transfer }

  /** Detection succeeded at some point. */
  predicate Passed(pr: Proc) { pr.phase.Detected? || pr.phase.Leaving? || pr.phase.Exited? }

  function Open(r: Record): nat { |r.comfds| + |r.fds| }

  /** What termination detection answers; a process without records is terminated too. */
  predicate Detectable(st: Status, pr: Proc) {
    pr.rec.Some? ==> Drained(st.version, pr.rec.value.flags, Open(pr.rec.value))
  }

  predicate Runs(s: Sys, p: Pid) { p in s.procs && s.procs[p].phase.Running? }

  predicate HasRecord(s: Sys, p: Pid) { p in s.procs && s.procs[p].rec.Some? }

  predicate InEvent(s: Sys, p: Pid) { Runs(s, p) && s.procs[p].live && HasRecord(s, p) }

  function VersionOf(s: Sys, p: Pid): int
    requires HasRecord(s, p)
  {
    s.procs[p].rec.value.flags.version
  }

  // ---------------------------------------------------------------- steps

  ghost predicate Enabled(s: Sys, step: Step) {
    match step
    case Spawn(p, g) => p !in s.procs && g !in s.workers
    case Fork(p, c) => Runs(s, p) && !s.procs[p].live && c !in s.procs
                       && (s.procs[p].request.Idle? || s.procs[p].request.Bound?)
    case BindFirst(p) => Runs(s, p) && s.procs[p].request.Idle? && !AddressTaken(s)
    case Connect(p) => Runs(s, p) && s.procs[p].request.Idle? && AddressTaken(s)
    case AcceptRequest(o, p) => InEvent(s, o) && Monitors(s.procs[o])
                                && Runs(s, p) && s.procs[p].request.Connecting?
    case Answer(o, p) => InEvent(s, o) && p in s.procs[o].rec.value.comfds
                         && Runs(s, p) && s.procs[p].request.Accepted?
    case Inherit(p) => Runs(s, p) && s.procs[p].request.Granted?
    case HangUp(o, p) => InEvent(s, o) && p in s.procs[o].rec.value.comfds && p in s.procs
                         && (Alive(s.procs[p]) ==> s.procs[p].request.Granted? || s.procs[p].request.Bound?)
    case Activate(p, _) => Runs(s, p) && !s.procs[p].live && (s.procs[p].request.Idle? || s.procs[p].request.Bound?)
    case MonitorRecord(p) => InEvent(s, p)
    case Detect(p) => Runs(s, p) && s.procs[p].live && Detectable(s.st, s.procs[p])
    case Decrement(p) => p in s.procs && s.procs[p].phase.Detected? && s.procs[p].gid in s.workers
    case KillGroup(p) => p in s.procs && s.procs[p].phase == Leaving(true)
    case Exit(p) => p in s.procs && s.procs[p].phase == Leaving(false)
    case Lock(p) => InEvent(s, p) && s.procs[p].checked && Monitors(s.procs[p]) && s.procs[p].rec.value.blocking
    case Release(p) => InEvent(s, p)
    case AcceptClient(p, _) => Runs(s, p) && HasRecord(s, p)
    case CloseClient(p, _) => Runs(s, p) && HasRecord(s, p)
    case CloseBound(p) => Runs(s, p) && HasRecord(s, p)
  }

  function WithRecord(s: Sys, p: Pid, r: Record): Sys
    requires p in s.procs
  {
    s.(procs := s.procs[p := s.procs[p].(rec := Some(r))])
  }

  function WithFlags(s: Sys, p: Pid, f: Flags): Sys
    requires HasRecord(s, p)
  {
    WithRecord(s, p, s.procs[p].rec.value.(flags := f))
  }

  function WithPhase(s: Sys, p: Pid, phase: Phase): Sys
    requires p in s.procs
  {
    s.(procs := s.procs[p := s.procs[p].(phase := phase)])
  }

  function WithRequest(s: Sys, p: Pid, request: Request): Sys
    requires p in s.procs
  {
    s.(procs := s.procs[p := s.procs[p].(request := request)])
  }

  function Checking(s: Sys, p: Pid, checked: bool): Sys
    requires p in s.procs
  {
    s.(procs := s.procs[p := s.procs[p].(checked := checked)])
  }

  function Where(procs: map<Pid, Proc>, P: Proc -> bool): set<Pid> {
    set p | p in procs && P(procs[p])
  }

  function Count(procs: map<Pid, Proc>, P: Proc -> bool): nat { |Where(procs, P)| }

  /** Working members of a group, and lock holders of a group, as properties to count. */
  function WorksIn(g: Gid): Proc -> bool { (pr: Proc) => pr.gid == g && Working(pr) }

  function LockedIn(g: Gid): Proc -> bool { (pr: Proc) => pr.gid == g && Locked(pr) }

  /** SIGKILL to the whole group; the caller is the one member whose detection is complete. */
  function Kill(s: Sys, p: Pid): map<Pid, Proc>
    requires p in s.procs
  {
    map q | q in s.procs ::
      if s.procs[q].gid == s.procs[p].gid && Alive(s.procs[q])
      then s.procs[q].(phase := if q == p then Exited else Killed)
      else s.procs[q]
  }

  ghost function Apply(s: Sys, step: Step): Sys
    requires Enabled(s, step)
  {
    match step
    case Spawn(p, g) =>
      s.(procs := s.procs[p := Proc(g, false, Running, Idle, None, false, false)], workers := s.workers[g := 0])
    case Fork(p, c) => s.(procs := s.procs[c := s.procs[p]])
    case BindFirst(p) =>
      var (st, f) := FirstBind(s.procs[p].gid);
      var s1 := WithRequest(WithRecord(s, p, Record(f, false, Socket(p), Socket(p), Listener(p), {}, {})), p, Bound);
      s1.(st := st, fdSem := 1, root := p, started := true,
          lost := 0, deficit := 0, stray := Count(s1.procs, Flagged), history := [s.procs[p].gid])
    case Connect(p) => WithRequest(s, p, Connecting)
    case AcceptRequest(o, p) =>
      var r := s.procs[o].rec.value;
      WithRequest(WithRecord(s, o, r.(comfds := r.comfds + {p})), p, Accepted)
    case Answer(o, p) =>
      var r := s.procs[o].rec.value;
      var (st, f) := Respond(s.st, r.flags);
      var reply := if r.flags.monitoring then Granted(r.shadow, r.listener) else Stuck;
      WithRequest(WithFlags(s, o, f).(st := st), p, reply)
    case Inherit(p) =>
      var q := s.procs[p].request;
      var f := Flags(InheritVersion(s.st, s.procs[p].gid), true, false, false);
      WithRequest(WithRecord(s, p, Record(f, false, Socket(p), q.shadow, q.listener, {}, {})), p, Bound)
    case HangUp(o, p) =>
      var r := s.procs[o].rec.value;
      WithRecord(s, o, r.(comfds := r.comfds - {p}))
    case Activate(p, blocking) =>
      var pr := s.procs[p].(live := true,
                            rec := if s.procs[p].rec.None? then None
                                   else Some(s.procs[p].rec.value.(blocking := blocking)));
      s.(procs := s.procs[p := pr],
         workers := if pr.gid in s.workers then s.workers[pr.gid := s.workers[pr.gid] + 1] else s.workers)
    case MonitorRecord(p) =>
      var f0 := s.procs[p].rec.value.flags;
      var (st, f) := Monitor(s.st, f0, s.procs[p].gid);
      Checking(WithFlags(s, p, f), p, true).(st := st,
                          deficit := if Quits(s.st, f0) && !f0.transfer then s.deficit + 1 else s.deficit,
                          history := if Bumps(s.st, f0) then s.history + [s.procs[p].gid] else s.history)
    case Detect(p) => WithPhase(s, p, Detected)
    case Decrement(p) =>
      var g := s.procs[p].gid;
      WithPhase(s, p, Leaving(s.workers[g] == 1)).(workers := s.workers[g := s.workers[g] - 1])
    case KillGroup(p) =>
      s.(procs := Kill(s, p), lost := s.lost + Count(s.procs, LockedIn(s.procs[p].gid)))
    case Exit(p) => WithPhase(s, p, Exited)
    case Lock(p) =>
      var (sem, f) := TryLock(s.fdSem, s.procs[p].rec.value.flags);
      WithFlags(s, p, f).(fdSem := sem)
    case Release(p) =>
      var (sem, f) := Unlock(s.fdSem, s.procs[p].rec.value.flags);
      Checking(WithFlags(s, p, f), p, false).(fdSem := sem)
    case AcceptClient(p, c) =>
      var r := s.procs[p].rec.value;
      WithRecord(s, p, r.(fds := r.fds + {c}))
    case CloseClient(p, c) =>
      var r := s.procs[p].rec.value;
      WithRecord(s, p, r.(fds := r.fds - {c}))
    case CloseBound(p) =>
      var f := s.procs[p].rec.value.flags;
      s.(procs := s.procs[p := s.procs[p].(rec := None, leaked := f.monitoring)],
         lost := if f.locked then s.lost + 1 else s.lost,
         stray := if f.transfer then s.stray - 1 else s.stray)
  }

  // ---------------------------------------------------------------- runs

  ghost predicate OutdatedGroup(s: Sys, g: Gid) {
    exists q :: HasRecord(s, q) && s.procs[q].gid == g && VersionOf(s, q) < s.st.version
  }

  ghost predicate OtherGroupPending(s: Sys, g: Gid) {
    exists q :: HasRecord(s, q) && s.procs[q].gid != g && VersionOf(s, q) == s.st.version + 1
  }

  /** A kill of the group is pending. */
  ghost predicate Doomed(s: Sys, g: Gid) {
    exists q :: q in s.procs && s.procs[q].gid == g && s.procs[q].phase == Leaving(true)
  }

  /** The process runs and monitors the port in version `v`, and no kill of its group is pending. */
  ghost predicate Ready(s: Sys, w: Pid, v: int) {
    Runs(s, w) && Monitors(s.procs[w]) && VersionOf(s, w) == v && !Doomed(s, s.procs[w].gid)
  }

  ghost predicate SomebodyReady(s: Sys, v: int) { exists w :: Ready(s, w, v) }

  ghost predicate BumpStep(s: Sys, step: Step)
    requires Enabled(s, step)
  {
    step.MonitorRecord? && Bumps(s.st, s.procs[step.p].rec.value.flags)
  }

  /** The step leaves the service to processes that a pending kill will hit: it moves the version
      although no process is ready in the new one, or it dooms the group of all that are ready in
      the current one. */
  ghost predicate Breaks(s: Sys, step: Step)
    requires Enabled(s, step)
  {
    || (BumpStep(s, step) && !SomebodyReady(s, s.st.version + 1))
    || (step.Decrement? && s.workers[s.procs[step.p].gid] == 1
        && forall w :: Ready(s, w, s.st.version) ==> s.procs[w].gid == s.procs[step.p].gid)
  }

  /** What is asked for. `Basic`: the application keeps the port open and enters its event loop
      with the port bound. `Orderly`: moreover no step breaks the service. Two rules that the
      application itself can keep are `NoReturn`: no process of an outdated group binds the port
      again; and `Patient`: no process enters its event loop while a kill of its group is
      pending. `OneSuccessor` is `NoReturn` with at most one group that waits for the next
      version. */
  datatype Rules = Basic | Orderly | NoReturn | Patient | OneSuccessor

  ghost predicate Allowed(rules: Rules, s: Sys, step: Step)
    requires Enabled(s, step)
  {
    && !step.CloseBound?
    && (step.Activate? ==> HasRecord(s, step.p) && (rules.Patient? ==> !Doomed(s, s.procs[step.p].gid)))
    && (step.Inherit? && (rules.NoReturn? || rules.OneSuccessor?) ==> !OutdatedGroup(s, s.procs[step.p].gid))
    && (step.Inherit? && rules.OneSuccessor? ==>
          s.procs[step.p].gid == s.st.pgid || !OtherGroupPending(s, s.procs[step.p].gid))
    && (rules.Orderly? ==> !Breaks(s, step))
  }

  /** A step that is not enabled does nothing, so every list of steps is a run. */
  ghost function Next(s: Sys, step: Step): Sys {
    if Enabled(s, step) then Apply(s, step) else s
  }

  ghost function Exec(s: Sys, steps: seq<Step>): Sys
    decreases |steps|
  {
    if steps == [] then s else Exec(Next(s, steps[0]), steps[1..])
  }

  /** Every step that happens is allowed. */
  ghost predicate Legal(rules: Rules, s: Sys, steps: seq<Step>)
    decreases |steps|
  {
    steps == [] ||
    ((Enabled(s, steps[0]) ==> Allowed(rules, s, steps[0])) && Legal(rules, Next(s, steps[0]), steps[1..]))
  }
}
