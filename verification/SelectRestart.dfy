/** The whole call of `select`: the state handler, the round, and the restart, over any finite
    sequence of what the rest of the world does. The result is stated in terms of the records as
    the call found them and of that sequence. */
module SelectRestart {
  import opened Steps
  import opened State
  import opened SelectSpec
  import opened Select
  import opened SelectCall
  import Core

  // ---------------------------------------------------------------- lawful answers

  /** The kernel hands out no descriptor that is open. */
  ghost predicate LawfulFor(vs: seq<View>, net: nat -> Net) {
    forall i {:trigger vs[i]} :: 0 <= i < |vs| ==> net(i).accepted != -1 ==> net(i).accepted !in vs[i].comfds
  }

  method Lawful(rs: seq<Record>, net: nat -> Net, ghost vs: seq<View>) returns (ok: bool)
    requires Shows(rs, vs) && ListsValid(rs)
    ensures ok <==> LawfulFor(vs, net)
  {
    for i := 0 to |rs|
      invariant forall j {:trigger vs[j]} :: 0 <= j < i ==> net(j).accepted != -1 ==> net(j).accepted !in vs[j].comfds
    {
      assert vs[i] == ViewOf(rs[i]);
      var found := ContainsFd(rs[i].comfds, net(i).accepted);
      if net(i).accepted != -1 && found {
        return false;
      }
    }
    return true;
  }

  ghost predicate AllListed(vs: seq<View>) { forall i :: 0 <= i < |vs| ==> Distinct(vs[i].comfds) }

  lemma {:induction false} DistinctIsNoRepeat(s: seq<int>, n: nat)
    requires n <= |s| && Distinct(s)
    ensures NoRepeat(s, n)
  {
    if n > 0 {
      DistinctIsNoRepeat(s, n - 1);
      assert forall i :: 0 <= i < n - 1 ==> s[i] != s[n - 1];
    }
  }

  lemma {:induction false} LawfulMeansNew(vs: seq<View>, net: nat -> Net, n: nat)
    requires n <= |vs| && AllListed(vs) && LawfulFor(vs, net)
    ensures NewOnes(vs, n, net)
  {
    if n > 0 {
      LawfulMeansNew(vs, net, n - 1);
      var v := vs[n - 1];
      var full := Connections(v, {v.comfd}, net(n - 1));
      assert Distinct(full) by { assert Distinct(v.comfds); }
      DistinctIsNoRepeat(full, |full|);
    }
  }

  /** The lists that a round leaves are again without repetition. */
  lemma KeptIsDistinct(vs: seq<View>, bits: set<int>, net: nat -> Net, i: nat)
    requires i < |vs| && NewOnes(vs, |vs|, net)
    ensures Distinct(PassTo(vs, |vs|, Pass(bits, Comfds(vs)), net).items[i])
  {
    PassIs(vs, |vs|, bits, net, i);
    NewOnesAt(vs, |vs|, net, i);
    var now := HandleAll(vs[..i], bits, net);
    UnlistedIsDistinct(vs[i], now, net(i));
    var full := Connections(vs[i], now, net(i));
    SurvivorsAre(full, |full|, now - {vs[i].comfd}, net(i));
  }

  /** Lists are well-formed and name no connection twice. */
  ghost predicate Tidy(rs: seq<Record>)
    reads Lists(rs)
  {
    forall i {:trigger rs[i]} :: 0 <= i < |rs| ==> rs[i].comfds.Valid() && Distinct(rs[i].comfds.Items())
  }

  // ---------------------------------------------------------------- what a call comes to

  /** A record as the call sees it: what the translation looks at, its version, whether it holds the
      lock, and whether it counts itself as transferring. */
  datatype Known = Known(view: View, version: int, locked: bool, transfer: bool)

  ghost function KnownOf(r: Record): Known
    reads r, r.comfds
  {
    Known(ViewOf(r), r.version, r.locked, r.transfer)
  }

  ghost predicate Knows(rs: seq<Record>, ks: seq<Known>)
    reads rs, Lists(rs)
  {
    |ks| == |rs| && forall i {:trigger rs[i]} :: 0 <= i < |rs| ==>
      var v := ks[i].view;
      && v.fd == rs[i].fd && v.shadowfd == rs[i].shadowfd && v.comfd == rs[i].comfd && v.port == rs[i].port
      && v.comfds == rs[i].comfds.Items() && v.monitoring == rs[i].monitoring && v.blocking == rs[i].blocking
      && ks[i].version == rs[i].version && ks[i].locked == rs[i].locked && ks[i].transfer == rs[i].transfer
  }

  /** The process group, how many clients each record has and which descriptors block, and what the
      caller asks for. */
  datatype Caller = Caller(pgid: int, clients: nat -> nat, isBlocking: int -> bool, nfds: int, forever: bool,
                           read: set<int>, write: set<int>, except: set<int>)

  /** The state handler on one record, on memory as the others left it. */
  function Handler(k: Known, seen: Seen, c: Caller): (Status, Flags) {
    Monitor(seen.status, Flags(k.version, k.view.monitoring, k.locked, k.transfer), c.pgid)
  }

  function Enter(k: Known, seen: Seen, live: bool, c: Caller): Known {
    k.(view := k.view.(monitoring := Handler(k, seen, c).1.monitoring,
                       blocking := if live then k.view.blocking else c.isBlocking(k.view.shadowfd)),
       transfer := Handler(k, seen, c).1.transfer)
  }

  function EnterAll(ks: seq<Known>, entry: nat -> Seen, live: bool, c: Caller): (r: seq<Known>)
    ensures |r| == |ks| && forall i :: 0 <= i < |r| ==> r[i] == Enter(ks[i], entry(i), live, c)
  {
    seq(|ks|, i requires 0 <= i < |ks| => Enter(ks[i], entry(i), live, c))
  }

  /** The record does not keep the process alive after the state handler. */
  predicate Over(k: Known, clients: nat, seen: Seen, c: Caller) {
    Drained(Handler(k, seen, c).0.version, Handler(k, seen, c).1, |k.view.comfds| + clients)
  }

  ghost predicate Stays(ks: seq<Known>, entry: nat -> Seen, c: Caller) {
    exists i :: 0 <= i < |ks| && !Over(ks[i], c.clients(i), entry(i), c)
  }

  function Views(ks: seq<Known>): (vs: seq<View>)
    ensures |vs| == |ks| && forall i :: 0 <= i < |vs| ==> vs[i] == ks[i].view
  {
    seq(|ks|, i requires 0 <= i < |ks| => ks[i].view)
  }

  /** The pass of an answered round over the internal connections. */
  ghost function PassOf(vs: seq<View>, round: Round, c: Caller): Pass
    requires round.kernel.Ready?
  {
    PassTo(vs, |vs|, Pass(Marked(vs, c.read, c.nfds, round.seen, round.kernel.read), Comfds(vs)), round.net)
  }

  /** Record `i` answers a request in the round. */
  ghost predicate ToldIn(vs: seq<View>, round: Round, c: Caller, i: nat)
    requires round.kernel.Ready? && i < |vs|
  {
    Tells(vs[i], HandleAll(vs[..i], Marked(vs, c.read, c.nfds, round.seen, round.kernel.read), round.net), round.net(i))
  }

  /** What is sent in the round. */
  ghost function SentIn(vs: seq<View>, round: Round, c: Caller): seq<Sent>
    requires round.kernel.Ready?
  {
    SentBy(vs, |vs|, Marked(vs, c.read, c.nfds, round.seen, round.kernel.read), round.net)
  }

  /** The records when an answered round is over: lists as handled, no lock held. */
  ghost function Leave(ks: seq<Known>, round: Round, c: Caller): (r: seq<Known>)
    requires round.kernel.Ready?
    ensures |r| == |ks|
    ensures forall i :: 0 <= i < |r| ==>
      r[i] == ks[i].(view := ks[i].view.(comfds := PassOf(Views(ks), round, c).items[i]), locked := false,
                     transfer := ks[i].transfer || ToldIn(Views(ks), round, c, i))
  {
    var p := PassOf(Views(ks), round, c);
    seq(|ks|, i requires 0 <= i < |ks| => ks[i].(view := ks[i].view.(comfds := p.items[i]), locked := false,
                                                 transfer := ks[i].transfer || ToldIn(Views(ks), round, c, i)))
  }

  /** The kernel's marks that are left in the three sets after the round. */
  ghost function Left(vs: seq<View>, round: Round, c: Caller): int
    requires round.kernel.Ready?
  {
    var tested := Tested(vs, c.read, c.nfds, round.seen);
    |PassOf(vs, round, c).bits| + |Marks(c.write, tested, round.kernel.write)| + |Marks(c.except, tested, round.kernel.except)|
  }

  /** A call as it was made: the records it found, whether the process was in an event loop
      before, what an earlier call left in `correction`, and what is asked for. */
  datatype Start = Start(records: seq<Known>, live: bool, correction: int, caller: Caller)

  ghost function Before(s: Start, rounds: seq<Round>, k: nat): seq<Known>
    requires k <= |rounds|
    decreases k
  {
    if k == 0 then s.records
    else if rounds[k - 1].kernel.Failure? then []
    else Leave(EnterAll(Before(s, rounds, k - 1), rounds[k - 1].entry, s.live || k > 1, s.caller), rounds[k - 1], s.caller)
  }

  /** The records in round `k` after the state handler. */
  ghost function During(s: Start, rounds: seq<Round>, k: nat): seq<Known>
    requires k < |rounds|
  {
    EnterAll(Before(s, rounds, k), rounds[k].entry, s.live || k > 0, s.caller)
  }

  ghost function ResultOf(s: Start, rounds: seq<Round>, k: nat): int
    requires k < |rounds| && rounds[k].kernel.Ready?
  {
    Left(Views(During(s, rounds, k)), rounds[k], s.caller) - if k == 0 then s.correction else 0
  }

  /** The process goes on in round `k`, and the kernel hands out nothing that is listed. */
  ghost predicate Goes(s: Start, rounds: seq<Round>, k: nat)
    requires k < |rounds|
  {
    Stays(Before(s, rounds, k), rounds[k].entry, s.caller) && LawfulFor(Views(During(s, rounds, k)), rounds[k].net)
  }

  /** Round `k` ends in a restart. */
  ghost predicate Restarts(s: Start, rounds: seq<Round>, k: nat)
    requires k < |rounds|
  {
    Goes(s, rounds, k) && rounds[k].kernel.Ready? && s.caller.forever && ResultOf(s, rounds, k) == 0
  }

  // ---------------------------------------------------------------- the call, in place

  /** The bind list holds the records; their ports and lists are pairwise different. */
  ghost predicate Table(process: Core.Process, rs: seq<Record>, ports: set<Port>, lists: set<List<int>>, c: Caller)
    reads process.binds, set r | r in rs :: r.fds
  {
    && process.Valid() && rs == process.binds.Items() && ports == Core.Ports(rs)
    && Different(rs) && Within(rs, ports, lists)
    && forall i {:trigger rs[i]} :: 0 <= i < |rs| ==> rs[i].fds.Valid() && rs[i].fds !in lists && |rs[i].fds.Items()| == c.clients(i)
  }

  method ObserveAll(rs: seq<Record>, seen: nat -> Seen, ghost ports: set<Port>, ghost lists: set<List<int>>)
    requires Different(rs) && Within(rs, ports, lists)
    modifies ports
    ensures forall i {:trigger rs[i]} :: 0 <= i < |rs| ==> rs[i].shared.Status() == seen(i).status
  {
    for i := 0 to |rs|
      invariant forall j {:trigger rs[j]} :: 0 <= j < i ==> rs[j].shared.Status() == seen(j).status
    {
      rs[i].shared.Observe(seen(i));
    }
  }

  /** What the state handler made of the records. */
  lemma EnteredAt(r: Record, k: Known, clients: nat, seen: Seen, live: bool, c: Caller, f: Flags)
    requires (r.shared.Status(), r.Flags()) == Monitor(seen.status, f, c.pgid) && f.monitoring == k.view.monitoring
    requires f.version == k.version && f.locked == k.locked && f.transfer == k.transfer
    requires r.comfds.Valid() && r.fds.Valid() && |r.fds.Items()| == clients
    requires ViewOf(r).(monitoring := k.view.monitoring, blocking := k.view.blocking) == k.view
    requires r.blocking == if live then k.view.blocking else c.isBlocking(k.view.shadowfd)
    ensures KnownOf(r) == Enter(k, seen, live, c)
    ensures Core.RecordDrained(r) <==> Over(k, clients, seen, c)
  {
    Core.DrainedMeansNothingOpen(r);
  }

  ghost function FlagsOf(rs: seq<Record>): (fs: seq<Flags>)
    reads rs
    ensures |fs| == |rs| && forall i {:trigger rs[i]} :: 0 <= i < |rs| ==> fs[i] == rs[i].Flags()
  {
    seq(|rs|, i requires 0 <= i < |rs| reads rs => rs[i].Flags())
  }

  ghost predicate Observed(rs: seq<Record>, entry: nat -> Seen)
    reads set r | r in rs :: r.shared
  {
    forall i {:trigger rs[i]} :: 0 <= i < |rs| ==> rs[i].shared.Status() == entry(i).status
  }

  /** The record went through the handler; `f` are the flags it had. */
  ghost predicate Monitored(r: Record, k: Known, clients: nat, seen: Seen, live: bool, c: Caller, f: Flags)
    reads r, r.shared, r.comfds, r.fds
  {
    && (r.shared.Status(), r.Flags()) == Monitor(seen.status, f, c.pgid)
    && f.monitoring == k.view.monitoring && f.version == k.version && f.locked == k.locked && f.transfer == k.transfer
    && r.comfds.Valid() && r.fds.Valid() && |r.fds.Items()| == clients
    && ViewOf(r).(monitoring := k.view.monitoring, blocking := k.view.blocking) == k.view
    && r.blocking == if live then k.view.blocking else c.isBlocking(k.view.shadowfd)
  }

  /** All of them did, and no connection was listed twice. */
  ghost predicate AllMonitored(rs: seq<Record>, ks: seq<Known>, entry: nat -> Seen, live: bool, c: Caller, fs: seq<Flags>)
    reads rs, Lists(rs), set r | r in rs :: r.fds, set r | r in rs :: r.shared
  {
    && |fs| == |ks| == |rs|
    && forall i {:trigger rs[i]} :: 0 <= i < |rs| ==>
         Monitored(rs[i], ks[i], c.clients(i), entry(i), live, c, fs[i]) && Distinct(ks[i].view.comfds)
  }

  /** Then each has become what `Enter` says. */
  lemma AllEntered(rs: seq<Record>, ks: seq<Known>, entry: nat -> Seen, live: bool, c: Caller, fs: seq<Flags>)
    requires AllMonitored(rs, ks, entry, live, c, fs)
    ensures Knows(rs, EnterAll(ks, entry, live, c)) && Tidy(rs)
    ensures Stays(ks, entry, c) <==> exists r :: r in rs && !Core.RecordDrained(r)
  {
    hide Enter, Over, Core.RecordDrained;
    forall i | 0 <= i < |rs|
      ensures KnownOf(rs[i]) == Enter(ks[i], entry(i), live, c) && (Core.RecordDrained(rs[i]) <==> Over(ks[i], c.clients(i), entry(i), c))
      ensures rs[i].comfds.Valid() && Distinct(rs[i].comfds.Items())
    {
      EnteredAt(rs[i], ks[i], c.clients(i), entry(i), live, c, fs[i]);
    }
  }

  method HandleRecords(process: Core.Process, ghost entry: nat -> Seen, isBlocking: int -> bool, ghost c: Caller, ghost ks: seq<Known>,
                       ghost rs: seq<Record>, ghost ports: set<Port>, ghost lists: set<List<int>>, ghost fs: seq<Flags>)
    returns (fate: Core.Fate)
    requires Table(process, rs, ports, lists, c) && Knows(rs, ks) && Tidy(rs) && Observed(rs, entry)
    requires c.pgid == process.pgid && c.isBlocking == isBlocking && fs == FlagsOf(rs)
    modifies process`live, process.workers, rs`transfer, rs`monitoring, rs`blocking, ports
    ensures process.live && AllMonitored(rs, ks, entry, old(process.live), c, fs)
    ensures fate.Stay? <==> exists r :: r in rs && !Core.RecordDrained(r)
    ensures fate.LeaveAndKill? <==> !fate.Stay? && process.workers[0] == 0
  {
    hide FlagsOf;
    hide List.Valid, List.Items, Core.RecordDrained, Monitor, Core.Ports, Distinct, Linked, ItemsOf, Different, Within;
    ghost var live := process.live;
    label observed:
    fate := process.InitializeEvent(isBlocking);
    forall i | 0 <= i < |rs| ensures Monitored(rs[i], ks[i], c.clients(i), entry(i), live, c, fs[i]) && Distinct(ks[i].view.comfds) {
      assert rs[i] in process.binds.Items() && Core.Handled@observed(rs[i], process.pgid);
      assert ks[i].view.comfds == rs[i].comfds.Items();
    }
  }

  method HandleStates(process: Core.Process, ghost entry: nat -> Seen, isBlocking: int -> bool, ghost c: Caller, ghost ks: seq<Known>,
                      ghost rs: seq<Record>, ghost ports: set<Port>, ghost lists: set<List<int>>, ghost fs: seq<Flags>)
    returns (fate: Core.Fate)
    requires Table(process, rs, ports, lists, c) && Knows(rs, ks) && Tidy(rs) && Observed(rs, entry)
    requires c.pgid == process.pgid && c.isBlocking == isBlocking && fs == FlagsOf(rs)
    modifies process`live, process.workers, rs`transfer, rs`monitoring, rs`blocking, ports
    ensures process.live && Table(process, rs, ports, lists, c) && AllMonitored(rs, ks, entry, old(process.live), c, fs)
    ensures fate.Stay? <==> exists r :: r in rs && !Core.RecordDrained(r)
    ensures fate.LeaveAndKill? <==> !fate.Stay? && process.workers[0] == 0
  {
    hide List.Valid, List.Items, Core.RecordDrained, AllMonitored, Knows, Tidy, Observed, FlagsOf, Core.ValidBinds;
    fate := HandleRecords(process, entry, isBlocking, c, ks, rs, ports, lists, fs);
  }

  /** The bind list, on memory as the other processes left it. */
  method WalkTable(process: Core.Process, entry: nat -> Seen, ghost c: Caller, ghost ks: seq<Known>,
                   ghost rs: seq<Record>, ghost ports: set<Port>, ghost lists: set<List<int>>)
    returns (all: seq<Record>)
    requires Table(process, rs, ports, lists, c) && Knows(rs, ks) && Tidy(rs)
    modifies ports
    ensures all == rs && Table(process, rs, ports, lists, c) && Knows(rs, ks) && Tidy(rs) && Observed(rs, entry)
  {
    hide List.Valid, List.Items;
    all := process.binds.Walk();
    ObserveAll(all, entry, ports, lists);
  }

  /** The state handler, on memory as the other processes left it. */
  method Prologue(process: Core.Process, entry: nat -> Seen, isBlocking: int -> bool, ghost c: Caller, ghost ks: seq<Known>,
                  ghost rs: seq<Record>, ghost ports: set<Port>, ghost lists: set<List<int>>)
    returns (fate: Core.Fate, all: seq<Record>)
    requires Table(process, rs, ports, lists, c) && Knows(rs, ks) && Tidy(rs)
    requires c.pgid == process.pgid && c.isBlocking == isBlocking
    modifies process`live, process.workers, rs`transfer, rs`monitoring, rs`blocking, ports
    ensures all == rs && process.live
    ensures Table(process, rs, ports, lists, c) && Tidy(rs) && Knows(rs, EnterAll(ks, entry, old(process.live), c))
    ensures fate.Stay? <==> Stays(ks, entry, c)
    ensures fate.LeaveAndKill? <==> !fate.Stay? && process.workers[0] == 0
  {
    hide List.Valid, List.Items, Stays, Table, AllMonitored, Core.RecordDrained, Knows, Tidy, Observed;
    all := WalkTable(process, entry, c, ks, rs, ports, lists);
    ghost var fs, live := FlagsOf(rs), process.live;
    fate := HandleStates(process, entry, isBlocking, c, ks, rs, ports, lists, fs);
    AllEntered(rs, ks, entry, live, c, fs);
  }

  /** What a returned round leaves the caller with; `vs` is what it found in the records. */
  ghost predicate Delivered(vs: seq<View>, round: Round, c: Caller, readfds: FdSet, writefds: FdSet?, exceptfds: FdSet?)
    reads readfds, writefds, exceptfds
    requires round.kernel.Ready?
  {
    var tested := Tested(vs, c.read, c.nfds, round.seen);
    && readfds.bits == Final(vs, c.read, c.nfds, round.seen, round.kernel.read, round.net)
    && Bits(writefds) == Marks(c.write, tested, round.kernel.write)
    && Bits(exceptfds) == Marks(c.except, tested, round.kernel.except)
  }

  /** The three sets hold what the caller asked for. */
  ghost predicate Asked(c: Caller, readfds: FdSet, writefds: FdSet?, exceptfds: FdSet?)
    reads readfds, writefds, exceptfds
  {
    readfds.bits == c.read && Bits(writefds) == c.write && Bits(exceptfds) == c.except
  }

  predicate Apart3(readfds: FdSet, writefds: FdSet?, exceptfds: FdSet?) {
    readfds != writefds && readfds != exceptfds && (writefds != null ==> writefds != exceptfds)
  }

  /** The bind list, and what is known of its records. */
  ghost predicate Scene(process: Core.Process, rs: seq<Record>, ks: seq<Known>, ports: set<Port>, lists: set<List<int>>, c: Caller)
    reads process.binds, rs, Lists(rs), set r | r in rs :: r.fds
  {
    Table(process, rs, ports, lists, c) && Tidy(rs) && Knows(rs, ks)
  }

  /** The caller's sets before a restart. */
  method Restore(readfds: FdSet, writefds: FdSet?, exceptfds: FdSet?, read: set<int>, write: set<int>, except: set<int>,
                 ghost c: Caller, ghost process: Core.Process, ghost rs: seq<Record>, ghost ks: seq<Known>,
                 ghost ports: set<Port>, ghost lists: set<List<int>>)
    requires Apart3(readfds, writefds, exceptfds) && read == c.read
    requires write == c.write && (writefds == null ==> write == {}) && except == c.except && (exceptfds == null ==> except == {})
    requires Scene(process, rs, ks, ports, lists, c)
    modifies readfds, writefds, exceptfds
    ensures Asked(c, readfds, writefds, exceptfds) && Scene(process, rs, ks, ports, lists, c)
  {
    hide List.Valid, List.Items, Core.ValidBinds, Table;
    readfds.bits := read;
    if writefds != null { writefds.bits := write; }
    if exceptfds != null { exceptfds.bits := except; }
  }

  /** The end of an answered round, on memory as it was seen in the round: every lock is given back
      and nothing else is posted, and a record that answered a request counts itself once. `ks` are
      the records as the state handler left them. */
  ghost predicate Finished(rs: seq<Record>, ks: seq<Known>, round: Round, c: Caller)
    requires round.kernel.Ready?
    reads rs, set r | r in rs :: r.shared
  {
    |ks| == |rs| && forall i {:trigger rs[i]} :: 0 <= i < |rs| ==>
      var told, seen := ToldIn(Views(ks), round, c, i), round.seen(i);
      && !rs[i].locked
      && rs[i].shared.fdSem == seen.fdSem
           + (if ks[i].locked && !Takes(Views(ks), Watch(c.read, c.nfds, false), round.seen, i) then 1 else 0)
      && rs[i].transfer == (ks[i].transfer || told)
      && rs[i].shared.Status() == Status(seen.status.pgid, seen.status.version,
                                         seen.status.transfer + if told && !ks[i].transfer then 1 else 0)
  }

  /** The end of a round in which the kernel fails: whoever got the lock keeps it. */
  ghost predicate Aborted(rs: seq<Record>, ks: seq<Known>, round: Round, c: Caller)
    reads rs, set r | r in rs :: r.shared
  {
    |ks| == |rs| && forall i {:trigger rs[i]} :: 0 <= i < |rs| ==>
      Begun(rs[i], ks[i].locked, round.seen(i), Takes(Views(ks), Watch(c.read, c.nfds, false), round.seen, i))
  }

  /** What the passes do not change. */
  ghost predicate KnowsRest(rs: seq<Record>, ks: seq<Known>)
    reads rs
  {
    |ks| == |rs| && forall i {:trigger rs[i]} :: 0 <= i < |rs| ==>
      && rs[i].fd == ks[i].view.fd && rs[i].shadowfd == ks[i].view.shadowfd && rs[i].comfd == ks[i].view.comfd
      && rs[i].port == ks[i].view.port
      && rs[i].monitoring == ks[i].view.monitoring && rs[i].blocking == ks[i].view.blocking
      && rs[i].version == ks[i].version
  }

  ghost function FlagsIn(k: Known): Flags { Flags(k.version, k.view.monitoring, k.locked, k.transfer) }

  ghost function StandingsOf(rs: seq<Record>): (sos: seq<(Status, Flags)>)
    reads rs, set r | r in rs :: r.shared
    ensures |sos| == |rs| && forall i {:trigger rs[i]} :: 0 <= i < |rs| ==> sos[i] == Core.Standing(rs[i])
  {
    seq(|rs|, i requires 0 <= i < |rs| reads rs, set r | r in rs :: r.shared => Core.Standing(rs[i]))
  }

  ghost function SemsOf(rs: seq<Record>): (sems: seq<int>)
    reads rs, set r | r in rs :: r.shared
    ensures |sems| == |rs| && forall i {:trigger rs[i]} :: 0 <= i < |rs| ==> sems[i] == rs[i].shared.fdSem
  {
    seq(|rs|, i requires 0 <= i < |rs| reads rs, set r | r in rs :: r.shared => rs[i].shared.fdSem)
  }

  lemma KnownStand(rs: seq<Record>, ks: seq<Known>)
    requires Knows(rs, ks)
    ensures Core.Stands(rs, StandingsOf(rs), SemsOf(rs)) && |ks| == |rs|
    ensures forall i :: 0 <= i < |ks| ==> StandingsOf(rs)[i].1 == FlagsIn(ks[i])
  {
    forall i | 0 <= i < |ks| ensures StandingsOf(rs)[i].1 == FlagsIn(ks[i]) { assert rs[i].Flags() == FlagsIn(ks[i]); }
  }

  lemma FinishedIs(rs: seq<Record>, ks: seq<Known>, round: Round, c: Caller, sos: seq<(Status, Flags)>)
    requires round.kernel.Ready? && |sos| == |ks| == |rs| && forall i :: 0 <= i < |ks| ==> sos[i].1 == FlagsIn(ks[i])
    requires var end := EndOf(Views(ks), c.read, c.nfds, round, sos);
             Core.Stands(rs, Core.Given(end),
                         Core.Posted(end, Core.Levels(round.seen, Gots(Views(ks), Watch(c.read, c.nfds, false), round.seen))))
    ensures Finished(rs, ks, round, c)
  {
    hide Tells, Takes, Marked, HandleAll;
  }

  lemma AbortedIs(rs: seq<Record>, ks: seq<Known>, round: Round, c: Caller, sos: seq<(Status, Flags)>)
    requires |sos| == |ks| == |rs| && forall i :: 0 <= i < |ks| ==> sos[i].1 == FlagsIn(ks[i])
    requires var gots := Gots(Views(ks), Watch(c.read, c.nfds, false), round.seen);
             Core.Stands(rs, Core.Taken(sos, round.seen, gots), Core.Levels(round.seen, gots))
    ensures Aborted(rs, ks, round, c)
  {
    hide Takes;
  }

  lemma LeftAs(rs: seq<Record>, ks: seq<Known>, round: Round, c: Caller, p: Pass)
    requires round.kernel.Ready? && NewOnes(Views(ks), |ks|, round.net) && p == PassOf(Views(ks), round, c)
    requires KnowsRest(rs, ks) && Hold(rs, p.items) && Finished(rs, ks, round, c)
    ensures Knows(rs, Leave(ks, round, c)) && Tidy(rs)
  {
    hide List.Valid, List.Items, PassTo, NewOnes, Marked, ToldIn, Takes;
    forall i | 0 <= i < |rs| ensures Distinct(p.items[i]) {
      KeptIsDistinct(Views(ks), Marked(Views(ks), c.read, c.nfds, round.seen, round.kernel.read), round.net, i);
    }
  }

  lemma EnteredViews(rs: seq<Record>, ks: seq<Known>, net: nat -> Net)
    requires Knows(rs, ks) && Tidy(rs)
    ensures |ks| == |rs| && Shows(rs, Views(ks)) && ListsValid(rs) && KnowsRest(rs, ks)
    ensures LawfulFor(Views(ks), net) ==> NewOnes(Views(ks), |ks|, net)
  {
    hide List.Valid, List.Items, Distinct, NewOnes, LawfulFor;
    if LawfulFor(Views(ks), net) {
      forall i | 0 <= i < |ks| ensures Distinct(Views(ks)[i].comfds) {
        assert rs[i].comfds.Valid() && ks[i].view.comfds == rs[i].comfds.Items();
      }
      LawfulMeansNew(Views(ks), net, |ks|);
    }
  }

  /** One round, with what it leaves of the records in terms of its passes. */
  method Answered(sel: Selector, rs: seq<Record>, readfds: FdSet, writefds: FdSet?, exceptfds: FdSet?, nfds: int, round: Round,
                  ghost c: Caller, ghost ks: seq<Known>, ghost ports: set<Port>, ghost lists: set<List<int>>,
                  ghost sos: seq<(Status, Flags)>, ghost sems: seq<int>)
    returns (result: int, sent: seq<Sent>, ghost p: Pass)
    requires Different(rs) && Within(rs, ports, lists) && Shows(rs, Views(ks)) && ListsValid(rs) && KnowsRest(rs, ks)
    requires NewOnes(Views(ks), |ks|, round.net) && Core.Stands(rs, sos, sems)
    requires |sos| == |ks| && forall i :: 0 <= i < |ks| ==> sos[i].1 == FlagsIn(ks[i])
    requires Apart3(readfds, writefds, exceptfds) && Asked(c, readfds, writefds, exceptfds) && nfds == c.nfds
    modifies sel, readfds, writefds, exceptfds, rs`locked, rs`transfer, ports, lists
    ensures round.kernel.Failure? ==>
      result == -1 && sent == [] && Bits(writefds) == c.write && Bits(exceptfds) == c.except && Aborted(rs, ks, round, c)
    ensures round.kernel.Ready? ==>
      && p == PassOf(Views(ks), round, c) && Hold(rs, p.items) && Finished(rs, ks, round, c)
      && Delivered(Views(ks), round, c, readfds, writefds, exceptfds)
      && result == Left(Views(ks), round, c) - old(sel.correction) && sel.correction == 0
      && sent == SentIn(Views(ks), round, c)
  {
    hide List.Valid, List.Items, PassTo, NewOnes, Marked, Tested, Final, PostAll, Shows, ListsValid, Hold, Takes, Different, Within;
    hide Core.Stands, Core.Taken, Core.Levels, Core.Given, Core.Posted, EndOf, Gots, SentBy, Finished, Aborted, KnowsRest;
    NumberOf(rs, ks);
    result, sent, p := OneRound(sel, rs, nfds, readfds, writefds, exceptfds, round, Views(ks), ports, lists, sos, sems);
    if round.kernel.Ready? {
      RoundIsExact(Views(ks), c.read, nfds, round, p);
      FinishedIs(rs, ks, round, c, sos);
    } else {
      AbortedIs(rs, ks, round, c, sos);
    }
  }

  lemma NumberOf(rs: seq<Record>, ks: seq<Known>)
    requires KnowsRest(rs, ks)
    ensures |ks| == |rs|
  {
  }

  /** The round leaves the rest of the records alone. */
  method AnsweredOn(sel: Selector, rs: seq<Record>, readfds: FdSet, writefds: FdSet?, exceptfds: FdSet?, nfds: int, round: Round,
                    ghost c: Caller, ghost ks: seq<Known>, ghost ports: set<Port>, ghost lists: set<List<int>>,
                    ghost sos: seq<(Status, Flags)>, ghost sems: seq<int>)
    returns (result: int, sent: seq<Sent>, ghost p: Pass)
    requires Different(rs) && Within(rs, ports, lists) && Shows(rs, Views(ks)) && ListsValid(rs) && KnowsRest(rs, ks)
    requires NewOnes(Views(ks), |ks|, round.net) && Core.Stands(rs, sos, sems)
    requires |sos| == |ks| && forall i :: 0 <= i < |ks| ==> sos[i].1 == FlagsIn(ks[i])
    requires Apart3(readfds, writefds, exceptfds) && Asked(c, readfds, writefds, exceptfds) && nfds == c.nfds
    modifies sel, readfds, writefds, exceptfds, rs`locked, rs`transfer, ports, lists
    ensures KnowsRest(rs, ks)
    ensures round.kernel.Failure? ==>
      result == -1 && sent == [] && Bits(writefds) == c.write && Bits(exceptfds) == c.except && Aborted(rs, ks, round, c)
    ensures round.kernel.Ready? ==>
      && p == PassOf(Views(ks), round, c) && Hold(rs, p.items) && Finished(rs, ks, round, c)
      && Delivered(Views(ks), round, c, readfds, writefds, exceptfds)
      && result == Left(Views(ks), round, c) - old(sel.correction) && sel.correction == 0
      && sent == SentIn(Views(ks), round, c)
  {
    hide Different, Within, Shows, ListsValid, NewOnes, Core.Stands, Asked, Aborted, Hold, Finished, Delivered, Left, SentIn, PassOf;
    result, sent, p := Answered(sel, rs, readfds, writefds, exceptfds, nfds, round, c, ks, ports, lists, sos, sems);
  }

  /** Whether the kernel's answers are lawful, and what `OneRound` needs if they are. */
  method CheckLawful(rs: seq<Record>, net: nat -> Net, ghost c: Caller, ghost ks: seq<Known>, ghost process: Core.Process,
                     ghost ports: set<Port>, ghost lists: set<List<int>>, ghost sos: seq<(Status, Flags)>, ghost sems: seq<int>)
    returns (ok: bool)
    requires Table(process, rs, ports, lists, c) && Tidy(rs) && Knows(rs, ks) && Core.Stands(rs, sos, sems)
    ensures ok <==> LawfulFor(Views(ks), net)
    ensures Table(process, rs, ports, lists, c) && Different(rs) && Within(rs, ports, lists)
    ensures |ks| == |rs| && Shows(rs, Views(ks)) && ListsValid(rs) && KnowsRest(rs, ks)
    ensures ok ==> NewOnes(Views(ks), |ks|, net)
    ensures Core.Stands(rs, sos, sems)
  {
    hide List.Valid, List.Items, Distinct, NewOnes, LawfulFor, Tidy;
    EnteredViews(rs, ks, net);
    ok := Lawful(rs, net, Views(ks));
  }

  /** One round on the records as the state handler left them. */
  method Attempt(sel: Selector, rs: seq<Record>, readfds: FdSet, writefds: FdSet?, exceptfds: FdSet?, nfds: int, round: Round,
                 ghost c: Caller, ghost ks: seq<Known>, ghost process: Core.Process, ghost ports: set<Port>, ghost lists: set<List<int>>)
    returns (answered: bool, result: int, sent: seq<Sent>)
    requires Table(process, rs, ports, lists, c) && Tidy(rs) && Knows(rs, ks)
    requires Apart3(readfds, writefds, exceptfds) && Asked(c, readfds, writefds, exceptfds) && nfds == c.nfds
    modifies sel, readfds, writefds, exceptfds, rs`locked, rs`transfer, ports, lists
    ensures answered <==> LawfulFor(Views(ks), round.net)
    ensures !answered || round.kernel.Failure? ==> sent == []
    ensures answered && round.kernel.Failure? ==>
      result == -1 && Bits(writefds) == c.write && Bits(exceptfds) == c.except && Aborted(rs, ks, round, c)
    ensures answered && round.kernel.Ready? ==>
      && Delivered(Views(ks), round, c, readfds, writefds, exceptfds)
      && result == Left(Views(ks), round, c) - old(sel.correction) && sel.correction == 0
      && sent == SentIn(Views(ks), round, c)
      && Table(process, rs, ports, lists, c) && Tidy(rs) && Knows(rs, Leave(ks, round, c)) && Finished(rs, ks, round, c)
  {
    hide Tidy, Knows, KnowsRest, Shows, ListsValid, Hold, Delivered, Left, LawfulFor, NewOnes, PassOf, Asked, Different, Within;
    hide Core.ValidBinds, List.Valid, List.Items, Finished, Aborted, SentIn, Core.Stands;
    result, sent := 0, [];
    ghost var sos, sems := StandingsOf(rs), SemsOf(rs);
    KnownStand(rs, ks);
    answered := CheckLawful(rs, round.net, c, ks, process, ports, lists, sos, sems);
    if answered {
      ghost var p;
      result, sent, p := AnsweredOn(sel, rs, readfds, writefds, exceptfds, nfds, round, c, ks, ports, lists, sos, sems);
      if round.kernel.Ready? {
        LeftAs(rs, ks, round, c, p);
      }
    }
  }

  /** The state handler and one round. */
  method Turn(sel: Selector, process: Core.Process, readfds: FdSet, writefds: FdSet?, exceptfds: FdSet?, nfds: int,
              round: Round, isBlocking: int -> bool, ghost c: Caller, ghost ks: seq<Known>,
              ghost rs: seq<Record>, ghost ports: set<Port>, ghost lists: set<List<int>>)
    returns (fate: Core.Fate, answered: bool, result: int, sent: seq<Sent>)
    requires Scene(process, rs, ks, ports, lists, c)
    requires c.pgid == process.pgid && c.isBlocking == isBlocking && nfds == c.nfds
    requires Apart3(readfds, writefds, exceptfds) && Asked(c, readfds, writefds, exceptfds)
    modifies sel, readfds, writefds, exceptfds, process`live, process.workers
    modifies rs`locked, rs`transfer, rs`monitoring, rs`blocking, ports, lists
    ensures process.live && (fate.Stay? <==> Stays(ks, round.entry, c))
    ensures fate.LeaveAndKill? <==> !fate.Stay? && process.workers[0] == 0
    ensures var now := EnterAll(ks, round.entry, old(process.live), c);
            && (answered <==> fate.Stay? && LawfulFor(Views(now), round.net))
            && (!answered || round.kernel.Failure? ==> sent == [])
            && (answered && round.kernel.Failure? ==>
                  result == -1 && Bits(writefds) == c.write && Bits(exceptfds) == c.except && Aborted(rs, now, round, c))
            && (answered && round.kernel.Ready? ==>
                  && Delivered(Views(now), round, c, readfds, writefds, exceptfds)
                  && result == Left(Views(now), round, c) - old(sel.correction) && sel.correction == 0
                  && sent == SentIn(Views(now), round, c)
                  && Scene(process, rs, Leave(now, round, c), ports, lists, c) && Finished(rs, now, round, c))
  {
    hide Table, Tidy, Knows, Delivered, Left, LawfulFor, Asked, Stays, List.Valid, List.Items, Finished, Aborted, SentIn;
    answered, result, sent := false, 0, [];
    var all;
    ghost var live := process.live;
    fate, all := Prologue(process, round.entry, isBlocking, c, ks, rs, ports, lists);
    if fate.Stay? {
      answered, result, sent := Attempt(sel, all, readfds, writefds, exceptfds, nfds, round, c,
                                  EnterAll(ks, round.entry, live, c), process, ports, lists);
    }
  }

  /** `Pending`: the kernel has not answered yet; `Gone`: the process was terminated. */
  datatype Outcome = Pending | Gone(fate: Core.Fate) | Returned(n: int)

  /** How a call ends in round `k`. */
  ghost predicate Ends(s: Start, rounds: seq<Round>, k: nat, outcome: Outcome)
    requires k <= |rounds|
  {
    && (forall j :: 0 <= j < k ==> Restarts(s, rounds, j))
    && if k == |rounds| then outcome.Pending?
       else if !Stays(Before(s, rounds, k), rounds[k].entry, s.caller) then outcome.Gone?
       else if !Goes(s, rounds, k) then outcome.Pending?
       else if rounds[k].kernel.Failure? then outcome == Returned(-1)
       else outcome == Returned(ResultOf(s, rounds, k)) && (s.caller.forever ==> ResultOf(s, rounds, k) != 0)
  }

  /** What a round makes of the records. */
  lemma NextRound(s: Start, rounds: seq<Round>, k: nat)
    requires k < |rounds|
    ensures During(s, rounds, k) == EnterAll(Before(s, rounds, k), rounds[k].entry, s.live || k > 0, s.caller)
    ensures rounds[k].kernel.Ready? ==> Before(s, rounds, k + 1) == Leave(During(s, rounds, k), rounds[k], s.caller)
  {
  }

  lemma FirstRound(s: Start, rounds: seq<Round>)
    ensures Before(s, rounds, 0) == s.records
  {
  }

  /** The end of a call in the terms in which a round is answered. */
  lemma EndsAs(s: Start, rounds: seq<Round>, k: nat, stays: bool, answered: bool, result: int)
    requires k < |rounds| && forall j :: 0 <= j < k ==> Restarts(s, rounds, j)
    requires stays <==> Stays(Before(s, rounds, k), rounds[k].entry, s.caller)
    requires answered <==> stays && LawfulFor(Views(During(s, rounds, k)), rounds[k].net)
    requires answered && rounds[k].kernel.Failure? ==> result == -1
    requires answered && rounds[k].kernel.Ready? ==>
      result == Left(Views(During(s, rounds, k)), rounds[k], s.caller) - if k == 0 then s.correction else 0
    ensures !stays ==> forall fate :: Ends(s, rounds, k, Gone(fate))
    ensures stays && !answered ==> Ends(s, rounds, k, Pending)
    ensures answered && (rounds[k].kernel.Failure? || !(result == 0 && s.caller.forever)) ==> Ends(s, rounds, k, Returned(result))
    ensures answered && rounds[k].kernel.Ready? && result == 0 && s.caller.forever ==> Restarts(s, rounds, k)
  {
    hide Left, Stays, LawfulFor, During, Before;
  }

  /** `select`: over any finite sequence of what the rest of the world does, the call ends as it
      must, and a call that returns leaves the caller's sets and the records as its last round
      makes them from the caller's own sets and from what all rounds together made of the records. */
  method Call(sel: Selector, process: Core.Process, nfds: int, readfds: FdSet, writefds: FdSet?, exceptfds: FdSet?,
              forever: bool, rounds: seq<Round>, isBlocking: int -> bool, ghost s: Start,
              ghost rs: seq<Record>, ghost ports: set<Port>, ghost lists: set<List<int>>)
    returns (outcome: Outcome, k: nat, sent: seq<Sent>)
    requires Scene(process, rs, s.records, ports, lists, s.caller)
    requires Apart3(readfds, writefds, exceptfds) && Asked(s.caller, readfds, writefds, exceptfds)
    requires s.live == process.live && s.correction == sel.correction
    requires var c := s.caller; c.pgid == process.pgid && c.isBlocking == isBlocking && c.nfds == nfds && c.forever == forever
    modifies sel, readfds, writefds, exceptfds, process`live, process.workers
    modifies rs`locked, rs`transfer, rs`monitoring, rs`blocking, ports, lists
    ensures k <= |rounds| && Ends(s, rounds, k, outcome)
    ensures outcome.Gone? ==> outcome.fate == if process.workers[0] == 0 then Core.LeaveAndKill else Core.Leave
    ensures outcome.Returned? && rounds[k].kernel.Failure? ==>
      && Bits(writefds) == s.caller.write && Bits(exceptfds) == s.caller.except
      && Aborted(rs, During(s, rounds, k), rounds[k], s.caller)
    ensures outcome.Returned? && rounds[k].kernel.Ready? ==>
      && Delivered(Views(During(s, rounds, k)), rounds[k], s.caller, readfds, writefds, exceptfds)
      && Scene(process, rs, Leave(During(s, rounds, k), rounds[k], s.caller), ports, lists, s.caller)
      && Finished(rs, During(s, rounds, k), rounds[k], s.caller) && sel.correction == 0
    ensures sent == SentUpTo(s, rounds, if outcome.Returned? && rounds[k].kernel.Ready? then k + 1 else k)
    ensures outcome.Returned? && rounds[k].kernel.Ready? ==>
      var c, vs, round := s.caller, Views(During(s, rounds, k)), rounds[k];
      Apart(vs, c.read, round.net) && (forall x :: x in c.read ==> x < c.nfds) ==>
        forall d :: d in readfds.bits <==> Found(vs, c.read, round.seen, round.kernel.read, d)
  {
    hide Delivered, Scene, Stays, LawfulFor, Left, Before, During, Restarts, Ends, Leave, EnterAll, Views;
    hide Goes, ResultOf, Finished, Aborted, SentIn, SentUpTo, Apart, Found;
    FirstRound(s, rounds);
    SentFirst(s, rounds);
    sent := [];
    var read, write := readfds.bits, if writefds == null then {} else writefds.bits;
    var except := if exceptfds == null then {} else exceptfds.bits;
    k, outcome := 0, Pending;
    while k < |rounds|
      invariant k <= |rounds| && outcome.Pending?
      invariant forall j :: 0 <= j < k ==> Restarts(s, rounds, j)
      invariant Scene(process, rs, Before(s, rounds, k), ports, lists, s.caller)
      invariant Asked(s.caller, readfds, writefds, exceptfds)
      invariant process.live == (s.live || k > 0) && sent == SentUpTo(s, rounds, k)
      invariant sel.correction == if k == 0 then s.correction else 0
    {
      var fate, answered, result, more;
      fate, answered, result, more := Turn(sel, process, readfds, writefds, exceptfds, nfds, rounds[k], isBlocking,
                                           s.caller, Before(s, rounds, k), rs, ports, lists);
      NextRound(s, rounds, k);
      sent := sent + more;
      EndsAs(s, rounds, k, fate.Stay?, answered, result);
      if !fate.Stay? {
        return Gone(fate), k, sent;
      }
      if !answered {
        return Pending, k, sent;
      }
      if rounds[k].kernel.Failure? || !(result == 0 && forever) {
        if rounds[k].kernel.Ready? { FoundIs(s, rounds, k, readfds, writefds, exceptfds); }
        return Returned(result), k, sent;
      }
      Restore(readfds, writefds, exceptfds, read, write, except, s.caller,
              process, rs, Before(s, rounds, k + 1), ports, lists);
      k := k + 1;
    }
    assert Ends(s, rounds, k, Pending) by { NeverAnswered(s, rounds); }
  }

  /** What is sent in the first `k` rounds. */
  ghost function SentUpTo(s: Start, rounds: seq<Round>, k: nat): seq<Sent>
    requires k <= |rounds|
  {
    if k == 0 then []
    else SentUpTo(s, rounds, k - 1)
         + if rounds[k - 1].kernel.Ready? then SentIn(Views(During(s, rounds, k - 1)), rounds[k - 1], s.caller) else []
  }

  lemma SentFirst(s: Start, rounds: seq<Round>)
    ensures SentUpTo(s, rounds, 0) == []
    ensures forall k :: 0 <= k < |rounds| && rounds[k].kernel.Ready? ==>
      SentUpTo(s, rounds, k + 1) == SentUpTo(s, rounds, k) + SentIn(Views(During(s, rounds, k)), rounds[k], s.caller)
  {
  }

  /** What a returned call found, in terms of the caller's own descriptors. */
  lemma FoundIs(s: Start, rounds: seq<Round>, k: nat, readfds: FdSet, writefds: FdSet?, exceptfds: FdSet?)
    requires k < |rounds| && rounds[k].kernel.Ready?
    requires Delivered(Views(During(s, rounds, k)), rounds[k], s.caller, readfds, writefds, exceptfds)
    ensures var c, vs, round := s.caller, Views(During(s, rounds, k)), rounds[k];
            Apart(vs, c.read, round.net) && (forall x :: x in c.read ==> x < c.nfds) ==>
              forall d :: d in readfds.bits <==> Found(vs, c.read, round.seen, round.kernel.read, d)
  {
    hide During, Final, Apart, Found;
    var c, vs, round := s.caller, Views(During(s, rounds, k)), rounds[k];
    if Apart(vs, c.read, round.net) && forall x :: x in c.read ==> x < c.nfds {
      forall d ensures d in readfds.bits <==> Found(vs, c.read, round.seen, round.kernel.read, d) {
        SelectRefines(vs, c.read, c.nfds, round.seen, round.kernel.read, round.net, d);
      }
    }
  }

  lemma NeverAnswered(s: Start, rounds: seq<Round>)
    requires forall j :: 0 <= j < |rounds| ==> Restarts(s, rounds, j)
    ensures Ends(s, rounds, |rounds|, Pending)
  {
  }

  /** The result is the number of descriptors left in the three sets, in the first round up to what
      `correction` held on entry, whenever every descriptor is used once. */
  lemma ResultIsTheSize(s: Start, rounds: seq<Round>, k: nat)
    requires k < |rounds| && rounds[k].kernel.Ready?
    requires Apart(Views(During(s, rounds, k)), s.caller.read, rounds[k].net) && forall x :: x in s.caller.read ==> x < s.caller.nfds
    ensures var c, vs, round := s.caller, Views(During(s, rounds, k)), rounds[k];
            var tested := Tested(vs, c.read, c.nfds, round.seen);
            ResultOf(s, rounds, k) + (if k == 0 then s.correction else 0)
            == |Final(vs, c.read, c.nfds, round.seen, round.kernel.read, round.net)|
               + |Marks(c.write, tested, round.kernel.write)| + |Marks(c.except, tested, round.kernel.except)|
  {
    hide Apart, Final, Tested, During;
    var vs := Views(During(s, rounds, k));
    RoundIsExact(vs, s.caller.read, s.caller.nfds, rounds[k], PassOf(vs, rounds[k], s.caller));
  }

  lemma EnterIs(k: Known, seen: Seen, live: bool, c: Caller)
    ensures Enter(k, seen, live, c).view.monitoring <==> k.view.monitoring && (k.locked || k.version >= seen.status.version)
  {
  }

  /** What is left of a record from one round to the next. */
  function Between(k: Known, comfds: seq<int>, transfer: bool): Known {
    k.(view := k.view.(comfds := comfds), locked := false, transfer := transfer)
  }

  lemma DuringNext(s: Start, rounds: seq<Round>, k: nat, i: nat) returns (cs: seq<int>, t: bool)
    requires 0 < k < |rounds| && rounds[k - 1].kernel.Ready? && i < |During(s, rounds, k - 1)|
    ensures |During(s, rounds, k)| == |During(s, rounds, k - 1)|
    ensures During(s, rounds, k)[i] == Enter(Between(During(s, rounds, k - 1)[i], cs, t), rounds[k].entry(i), true, s.caller)
  {
    NextRound(s, rounds, k);
    NextRound(s, rounds, k - 1);
    hide During, Enter, ToldIn, PassOf;
    var was := During(s, rounds, k - 1);
    cs := PassOf(Views(was), rounds[k - 1], s.caller).items[i];
    t := was[i].transfer || ToldIn(Views(was), rounds[k - 1], s.caller, i);
    assert Leave(was, rounds[k - 1], s.caller)[i] == Between(was[i], cs, t);
  }

  /** Rounds do not change which descriptors a record has, and a record that no longer monitors in
      one round does not monitor in a later one. */
  lemma {:induction false} DuringIs(s: Start, rounds: seq<Round>, k: nat, i: nat)
    requires k < |rounds| && i < |s.records| && forall j :: 0 <= j < k ==> rounds[j].kernel.Ready?
    ensures |During(s, rounds, k)| == |s.records|
    ensures var now, was := During(s, rounds, k)[i], s.records[i];
            && now.version == was.version
            && now.view.fd == was.view.fd && now.view.shadowfd == was.view.shadowfd && now.view.comfd == was.view.comfd
            && now.view.blocking == (if s.live then was.view.blocking else s.caller.isBlocking(was.view.shadowfd))
            && (now.view.monitoring <==>
                  && was.view.monitoring
                  && (was.locked || was.version >= rounds[0].entry(i).status.version)
                  && forall j :: 1 <= j <= k ==> was.version >= rounds[j].entry(i).status.version)
  {
    hide Steps.Monitor, Handler, Leave, ToldIn;
    if k == 0 {
      EnterIs(s.records[i], rounds[0].entry(i), s.live, s.caller);
    } else {
      DuringIs(s, rounds, k - 1, i);
      var cs, t := DuringNext(s, rounds, k, i);
      hide During;
      var was := During(s, rounds, k - 1)[i];
      EnterIs(Between(was, cs, t), rounds[k].entry(i), true, s.caller);
    }
  }
}
