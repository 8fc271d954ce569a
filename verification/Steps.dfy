/** The critical sections of the handover, as functions on values.

    A port's shared memory holds three integers; a process's record for that port holds the
    flags the library decides on. Every function below is one section the source runs while
    holding a semaphore, so it is one atomic step of the system. Module `Core` proves the
    methods that update memory in place against these functions, module `Protocol` composes
    them into runs of many processes. */
module Steps {

  /** `status[DSU_PGID]`, `status[DSU_VERSION]` and `status[DSU_TRANSFER]` of one port. */
  datatype Status = Status(pgid: int, version: int, transfer: int)

  /** The part of a record that the critical sections read and write. */
  datatype Flags = Flags(version: int, monitoring: bool, locked: bool, transfer: bool)

  /** The status and flags that the first bind of a port leaves behind. */
  function FirstBind(pgid: int): (Status, Flags) {
    (Status(pgid, 0, 0), Flags(0, true, false, false))
  }

  /** The version of a record that inherited its descriptors: a process of the group that serves
      now is a delayed sibling, any other belongs to the next version. */
  function InheritVersion(st: Status, pgid: int): int {
    if st.pgid != pgid then st.version + 1 else st.version
  }

  predicate Quits(st: Status, f: Flags) {
    f.version < st.version && f.monitoring && !f.locked
  }

  predicate Bumps(st: Status, f: Flags) {
    f.version > st.version && f.monitoring
  }

  /** The state handler run for every record at each event call. */
  function Monitor(st: Status, f: Flags, pgid: int): (Status, Flags) {
    if Quits(st, f) then
      (st.(transfer := st.transfer - 1), f.(monitoring := false, transfer := false))
    else if Bumps(st, f) then
      (Status(pgid, st.version + 1, st.transfer), f)
    else
      (st, f)
  }

  /** A record counts itself as transferring once, at the first request it answers. */
  function Respond(st: Status, f: Flags): (Status, Flags) {
    if f.transfer then (st, f)
    else (st.(transfer := st.transfer + 1), f.(transfer := true))
  }

  /** `sem_trywait` on the port's descriptor lock: the semaphore and the record's flag. */
  function TryLock(fdSem: int, f: Flags): (int, Flags) {
    if fdSem > 0 then (fdSem - 1, f.(locked := true)) else (fdSem, f)
  }

  /** The unlock after an event call; a record that does not hold the lock posts nothing. */
  function Unlock(fdSem: int, f: Flags): (int, Flags) {
    if f.locked then (fdSem + 1, f.(locked := false)) else (fdSem, f)
  }

  /** A record no longer keeps its process alive: outdated, unmonitored, nothing open. */
  predicate Drained(version: int, f: Flags, open: nat) {
    f.version < version && !f.monitoring && open == 0
  }
}
