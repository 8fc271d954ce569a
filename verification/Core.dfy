/** The state handler: the critical sections on shared memory, in place, and what one event call
    does before it waits. */
module Core {
  import opened Steps
  import opened State

  /** `dsu_monitor_fd`; `closed` tells that the communication descriptor was closed. */
  method MonitorFd(r: Record, pgid: int) returns (closed: bool)
    modifies r`monitoring, r`transfer, r.shared`pgid, r.shared`version, r.shared`transfer
    ensures (r.shared.Status(), r.Flags()) == Monitor(old(r.shared.Status()), old(r.Flags()), pgid)
    ensures closed <==> Quits(old(r.shared.Status()), old(r.Flags()))
  {
    var port := r.shared;
    closed := false;
    if r.version < port.version && r.monitoring && !r.locked {
      closed := true;
      r.monitoring := false;
      port.transfer := port.transfer - 1;
      r.transfer := false;
    }
    if r.version > port.version && r.monitoring {
      port.pgid := pgid;
      port.version := port.version + 1;
    }
  }

  /** The count of a record's first answer. */
  method Announce(r: Record)
    modifies r`transfer, r.shared`transfer
    ensures (r.shared.Status(), r.Flags()) == Respond(old(r.shared.Status()), old(r.Flags()))
  {
    if !r.transfer {
      r.shared.transfer := r.shared.transfer + 1;
      r.transfer := true;
    }
  }

  /** `sem_trywait` on the descriptor lock. */
  method TryLockFd(r: Record) returns (acquired: bool)
    modifies r`locked, r.shared`fdSem
    ensures (r.shared.fdSem, r.Flags()) == TryLock(old(r.shared.fdSem), old(r.Flags()))
    ensures acquired <==> old(r.shared.fdSem) > 0
  {
    acquired := r.shared.fdSem > 0;
    if acquired {
      r.shared.fdSem := r.shared.fdSem - 1;
      r.locked := true;
    }
  }

  method UnlockFd(r: Record)
    modifies r`locked, r.shared`fdSem
    ensures (r.shared.fdSem, r.Flags()) == Unlock(old(r.shared.fdSem), old(r.Flags()))
  {
    if r.locked {
      r.shared.fdSem := r.shared.fdSem + 1;
      r.locked := false;
    }
  }

  /** A port's status and a record's flags. */
  ghost function Standing(r: Record): (Status, Flags)
    reads r, r.shared
  {
    (r.shared.Status(), r.Flags())
  }

  function Count(so: (Status, Flags), answered: bool): (Status, Flags) {
    if answered then Respond(so.0, so.1) else so
  }

  /** How records and ports stand, and the semaphores of their locks. */
  ghost predicate Stands(rs: seq<Record>, sos: seq<(Status, Flags)>, sems: seq<int>)
    reads rs, set r | r in rs :: r.shared
  {
    && |sos| == |sems| == |rs|
    && forall i {:trigger rs[i]} :: 0 <= i < |rs| ==> Standing(rs[i]) == sos[i] && rs[i].shared.fdSem == sems[i]
  }

  /** What an event call makes of records and semaphores: before it waits, on memory as the other
      processes left it, with the lock for the records in `gots`; and when it unlocks. */
  function Taken(sos: seq<(Status, Flags)>, seen: nat -> Seen, gots: seq<bool>): (r: seq<(Status, Flags)>)
    requires |sos| == |gots|
    ensures |r| == |sos|
    ensures forall i :: 0 <= i < |r| ==> r[i] == (seen(i).status, sos[i].1.(locked := sos[i].1.locked || gots[i]))
  {
    seq(|sos|, i requires 0 <= i < |sos| => (seen(i).status, sos[i].1.(locked := sos[i].1.locked || gots[i])))
  }

  function Levels(seen: nat -> Seen, gots: seq<bool>): (r: seq<int>)
    ensures |r| == |gots| && forall i :: 0 <= i < |r| ==> r[i] == seen(i).fdSem - if gots[i] then 1 else 0
  {
    seq(|gots|, i requires 0 <= i < |gots| => seen(i).fdSem - if gots[i] then 1 else 0)
  }

  function Given(sos: seq<(Status, Flags)>): (r: seq<(Status, Flags)>)
    ensures |r| == |sos| && forall i :: 0 <= i < |r| ==> r[i] == (sos[i].0, sos[i].1.(locked := false))
  {
    seq(|sos|, i requires 0 <= i < |sos| => (sos[i].0, sos[i].1.(locked := false)))
  }

  function Posted(sos: seq<(Status, Flags)>, sems: seq<int>): (r: seq<int>)
    requires |sos| == |sems|
    ensures |r| == |sems| && forall i :: 0 <= i < |r| ==> r[i] == sems[i] + if sos[i].1.locked then 1 else 0
  {
    seq(|sems|, i requires 0 <= i < |sems| => sems[i] + if sos[i].1.locked then 1 else 0)
  }

  ghost predicate ValidBinds(binds: List<Record>)
    reads binds
  {
    && binds.Valid() && Distinct(binds.Items())
    && (forall i, j :: 0 <= i < j < |binds.Items()| ==>
          binds.Items()[i].shared != binds.Items()[j].shared)
  }

  ghost predicate RecordDrained(r: Record)
    reads r, r.shared, r.comfds, r.fds
  {
    r.version < r.shared.version && !r.monitoring && r.comfds.head == null && r.fds.head == null
  }

  lemma DrainedMeansNothingOpen(r: Record)
    requires r.comfds.Valid() && r.fds.Valid()
    ensures RecordDrained(r) <==> Drained(r.shared.version, r.Flags(), |r.comfds.Items()| + |r.fds.Items()|)
  {
  }

  /** Termination detection: true exactly when every record of the process is outdated, no longer
      monitored, and without internal or client connections. */
  method TerminationDetection(binds: List<Record>) returns (done: bool)
    requires ValidBinds(binds)
    ensures done <==> forall r :: r in binds.Items() ==> RecordDrained(r)
  {
    var rs := binds.Walk();
    for i := 0 to |rs|
      invariant forall j :: 0 <= j < i ==> RecordDrained(rs[j])
    {
      var r := rs[i];
      if r.version >= r.shared.version || r.monitoring || r.comfds.head != null || r.fds.head != null {
        assert r == binds.Items()[i] && !RecordDrained(r);
        return false;
      }
    }
    return true;
  }

  /** One record and its port went through the state handler. */
  twostate predicate Handled(r: Record, pgid: int)
    reads r, r.shared
  {
    (r.shared.Status(), r.Flags()) == Monitor(old(r.shared.Status()), old(r.Flags()), pgid)
  }

  twostate predicate Untouched(r: Record)
    reads r, r.shared
  {
    r.shared.Status() == old(r.shared.Status()) && r.Flags() == old(r.Flags())
  }

  ghost function Ports(rs: seq<Record>): set<Port> {
    set r | r in rs :: r.shared
  }

  method HandleAll(rs: seq<Record>, pgid: int)
    requires forall i, j :: 0 <= i < j < |rs| ==> rs[i] != rs[j] && rs[i].shared != rs[j].shared
    modifies rs`monitoring, rs`transfer, Ports(rs)
    ensures forall i :: 0 <= i < |rs| ==> Handled(rs[i], pgid)
  {
    for i := 0 to |rs|
      invariant forall j :: 0 <= j < i ==> Handled(rs[j], pgid)
      invariant forall j :: i <= j < |rs| ==> Untouched(rs[j])
    {
      var _ := MonitorFd(rs[i], pgid);
    }
  }

  datatype Fate = Stay | Leave | LeaveAndKill

  /** The library's state in one process. */
  class Process {
    const binds: List<Record>
    const workers: array<int>
    const pgid: int
    var live: bool

    ghost predicate Valid()
      reads binds
    {
      && ValidBinds(binds) && workers.Length == 1
    }

    constructor (binds: List<Record>, workers: array<int>, pgid: int)
      requires ValidBinds(binds) && workers.Length == 1
      ensures Valid() && !live && this.binds == binds && this.workers == workers && this.pgid == pgid
    {
      this.binds, this.workers, this.pgid, live := binds, workers, pgid, false;
    }

    method ConfigureProcess(isBlocking: int -> bool)
      requires Valid()
      modifies binds.Items()`blocking
      ensures Valid()
      ensures forall r :: r in binds.Items() ==> r.blocking == isBlocking(r.shadowfd)
    {
      var rs := binds.Walk();
      for i := 0 to |rs|
        invariant forall j :: 0 <= j < i ==> rs[j].blocking == isBlocking(rs[j].shadowfd)
      {
        rs[i].blocking := isBlocking(rs[i].shadowfd);
      }
    }

    /** The state handler on every record; each is its own port, so each section is its own. */
    method MonitorAll()
      requires Valid()
      modifies binds.Items()`monitoring, binds.Items()`transfer, Ports(binds.Items())
      ensures Valid()
      ensures forall i :: 0 <= i < |binds.Items()| ==> Handled(binds.Items()[i], pgid)
    {
      var rs := binds.Walk();
      HandleAll(rs, pgid);
    }

    /** On the first event call the process counts itself as a worker and looks which of its
        sockets block. */
    method Activate(isBlocking: int -> bool)
      requires Valid()
      modifies `live, workers, binds.Items()`blocking
      ensures Valid() && live && workers[0] == old(workers[0]) + (if old(live) then 0 else 1)
      ensures forall r :: r in binds.Items() ==> r.blocking == if old(live) then old(r.blocking) else isBlocking(r.shadowfd)
    {
      if !live {
        workers[0] := workers[0] + 1;
        ConfigureProcess(isBlocking);
        live := true;
      }
    }

    /** A process that is done gives up its place, and the last one takes the group along. */
    method Terminate() returns (fate: Fate)
      requires Valid()
      modifies workers
      ensures workers[0] == old(workers[0]) - 1
      ensures fate == if workers[0] == 0 then LeaveAndKill else Leave
    {
      workers[0] := workers[0] - 1;
      fate := if workers[0] == 0 then LeaveAndKill else Leave;
    }

    /** Termination detection, and the end of the process when it succeeds. */
    method TerminateIfDone() returns (fate: Fate)
      requires Valid()
      modifies workers
      ensures fate.Stay? <==> exists r :: r in binds.Items() && !RecordDrained(r)
      ensures workers[0] == old(workers[0]) - (if fate.Stay? then 0 else 1)
      ensures fate.LeaveAndKill? <==> !fate.Stay? && workers[0] == 0
    {
      var done := TerminationDetection(binds);
      fate := Stay;
      if done {
        fate := Terminate();
      }
    }

    /** What every event call does before it waits: activation, the state handler on every record,
        and termination detection on what the handler leaves. */
    method InitializeEvent(isBlocking: int -> bool) returns (fate: Fate)
      requires Valid()
      modifies `live, workers, binds.Items()`blocking, binds.Items()`monitoring, binds.Items()`transfer, Ports(binds.Items())
      ensures live
      ensures forall i :: 0 <= i < |binds.Items()| ==> Handled(binds.Items()[i], pgid)
      ensures forall r :: r in binds.Items() ==> r.blocking == if old(live) then old(r.blocking) else isBlocking(r.shadowfd)
      ensures fate.Stay? <==> exists r :: r in binds.Items() && !RecordDrained(r)
      ensures workers[0] == old(workers[0]) + (if old(live) then 0 else 1) - (if fate.Stay? then 0 else 1)
      ensures fate.LeaveAndKill? <==> !fate.Stay? && workers[0] == 0
    {
      hide Linked, ItemsOf, Distinct, List.Valid, RecordDrained;
      Activate(isBlocking);
      MonitorAll();
      fate := TerminateIfDone();
    }
  }
}
