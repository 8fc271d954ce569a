/** One call of `epoll_wait` over all records: the passes over the bind list around the kernel's
    answer, and what the call amounts to. */
module EpollCall {
  import opened Steps
  import opened State
  import opened EpollSpec
  import opened Epoll
  import opened EpollMessages
  import Select
  import SelectSpec
  import SelectCall
  import Core

  // ---------------------------------------------------------------- the call

  /** The library's own descriptors. */
  function Own(p: Peer): seq<int> { (if p.monitoring then [p.offer.comfd] else []) + p.conns }

  function Owns(ps: seq<Peer>): (dss: seq<seq<int>>)
    ensures |dss| == |ps| && forall i :: 0 <= i < |ps| ==> dss[i] == Own(ps[i])
  {
    seq(|ps|, i requires 0 <= i < |ps| => Own(ps[i]))
  }

  function InternalOf(ps: seq<Peer>): seq<int> { Concat(Owns(ps), |ps|) }

  /** What the records bring once they have handled the events. */
  function PeersAfter(ps: seq<Peer>, s: seq<Event>, nets: nat -> Net): (r: seq<Peer>)
    ensures |r| == |ps| && forall i :: 0 <= i < |ps| ==> r[i] == ps[i].(conns := ConnsOf(ps, i, s, nets))
  {
    seq(|ps|, i requires 0 <= i < |ps| => ps[i].(conns := ConnsOf(ps, i, s, nets)))
  }

  /** A call: the records, the interest list before it, the unbound descriptors that the application
      registered, the closed listeners that the kernel still watches, which records are admitted, and
      what the kernel answers. */
  datatype Call = Call(es: seq<Entry>, ps: seq<Peer>, before: Interest, own: set<int>, stale: set<int>,
                       admitted: nat -> bool, iv: Event, ready: seq<int>, mask: int -> int, nets: nat -> Net)

  /** Descriptors that the library can name and what it will have when the call is over. */
  function Known(c: Call): set<int>
    requires AllIn(c.ready, Watched(c))
  {
    Now(c) + SetOf(InternalOf(c.ps))
  }

  function Watched(c: Call): Interest { Waiting(c.es, c.before, c.admitted, InternalOf(c.ps), c.iv) }

  function Reported(c: Call): seq<Event>
    requires AllIn(c.ready, Watched(c))
  {
    Report(Watched(c), c.ready, c.mask)
  }

  function Closed(c: Call): set<int>
    requires AllIn(c.ready, Watched(c))
  {
    ClosedBy(c.ps, |c.ps|, Reported(c), c.nets)
  }

  function Now(c: Call): set<int>
    requires AllIn(c.ready, Watched(c))
  {
    SetOf(InternalOf(PeersAfter(c.ps, Reported(c), c.nets)))
  }

  /** The interest list that the call leaves. */
  function Left(c: Call): Interest
    requires AllIn(c.ready, Watched(c))
  {
    After(c.es, c.before, c.admitted, InternalOf(c.ps), c.iv, Closed(c))
  }

  /** The kernel reports watched descriptors, each once, and hands out no number that is listed or
      reported; and the interest list is one that a call may find. */
  ghost predicate Lawful(c: Call) {
    && AllIn(c.ready, Watched(c)) && Distinct(c.ready)
    && Faithful(c.es, c.before, InternalOf(c.ps), Known(c), c.own, c.stale)
    && (forall i :: 0 <= i < |c.ps| ==> Tidy(c.ps[i]))
    && NewFor(c.ps, |c.ps|, Reported(c), c.nets)
  }

  /** The events that the call leaves in the caller's array. */
  function Told(c: Call): seq<Event>
    requires AllIn(c.ready, Watched(c))
  {
    Corrected(Marks(Reported(c), Closed(c)), |c.ready|, Now(c), c.es)
  }

  /** The application's own registrations that are ready. */
  function Wanted(c: Call): seq<Event> {
    UserEvents(c.ready, |c.ready|, c.mask, c.es, c.before, c.own)
  }

  lemma {:induction false} ConcatMembers(dss: seq<seq<int>>, n: nat, d: int)
    requires n <= |dss|
    ensures d in Concat(dss, n) <==> exists i :: 0 <= i < n && d in dss[i]
  {
    if n > 0 {
      ConcatMembers(dss, n - 1, d);
    }
  }

  lemma InternalMembers(ps: seq<Peer>, d: int)
    ensures d in InternalOf(ps) <==> exists i :: 0 <= i < |ps| && d in Own(ps[i])
  {
    ConcatMembers(Owns(ps), |ps|, d);
  }

  lemma ConnIsInternal(ps: seq<Peer>, i: nat, d: int)
    requires i < |ps| && d in ps[i].conns
    ensures d in InternalOf(ps)
  {
    assert d in Own(ps[i]);
    InternalMembers(ps, d);
  }

  /** A connection that is ready is the only event with its number. */
  lemma ReportsAreSole(c: Call)
    requires Lawful(c)
    ensures Ready(c.ps, Reported(c))
  {
    hide Waiting, InternalOf, NewFor, DataFd, Faithful, Report, Known;
    var s := Reported(c);
    forall i, j, k | 0 <= i < |c.ps| && 0 <= j < k < |s| && DataFd(s[j].data) in c.ps[i].conns
      ensures DataFd(s[j].data) != DataFd(s[k].data)
    {
      ConnIsInternal(c.ps, i, DataFd(s[j].data));
      ReportedData(c, j);
      ReportedData(c, k);
    }
  }

  lemma ReportedData(c: Call, k: nat)
    requires AllIn(c.ready, Watched(c)) && k < |c.ready|
    requires Faithful(c.es, c.before, InternalOf(c.ps), Known(c), c.own, c.stale)
    ensures var d := DataFd(Reported(c)[k].data);
            if c.ready[k] in InternalOf(c.ps) then d == c.ready[k] else d !in InternalOf(c.ps)
  {
    hide Faithful, Waiting, InternalOf, DataFd;
    var d := c.ready[k];
    if d in InternalOf(c.ps) {
      OneInternalEvent(c.es, c.before, c.admitted, InternalOf(c.ps), c.iv, Known(c), c.own, c.stale, d);
    } else {
      OneOtherEvent(c.es, c.before, c.admitted, InternalOf(c.ps), c.iv, Known(c), c.own, c.stale, d, c.mask(d));
    }
  }

  lemma {:induction false} GoneIsClosed(ps: seq<Peer>, i: nat, n: nat, s: seq<Event>, nets: nat -> Net)
    requires i < n <= |ps|
    ensures Gone(Finds(ps, i, s, nets), |s|, ps[i], nets(i)) <= ClosedBy(ps, n, s, nets)
  {
    if i < n - 1 {
      GoneIsClosed(ps, i, n - 1, s, nets);
    }
  }

  lemma StaysOwn(ps: seq<Peer>, s: seq<Event>, nets: nat -> Net, i: nat, d: int)
    requires i < |ps| && d in Own(ps[i]) && d !in ClosedBy(ps, |ps|, s, nets)
    ensures d in Own(PeersAfter(ps, s, nets)[i])
  {
    hide Finds, ClosedBy;
    GoneIsClosed(ps, i, |ps|, s, nets);
    KeptAre(ps[i].conns, Gone(Finds(ps, i, s, nets), |s|, ps[i], nets(i)), d);
  }

  lemma OwnIsADescriptor(ps: seq<Peer>, s: seq<Event>, nets: nat -> Net, i: nat)
    requires i < |ps| && Tidy(ps[i]) && NewFor(ps, |ps|, s, nets) && (ps[i].monitoring ==> ps[i].offer.comfd != -1)
    ensures -1 !in Own(PeersAfter(ps, s, nets)[i])
  {
    NewForPrefix(ps, |ps|, i + 1, s, nets);
    hide ClosedBy, Gone, Accepted, Kept, New, Tidy, ConnsAfter;
    ConnsAreDistinct(Finds(ps, i, s, nets), |s|, ps[i], nets(i));
  }

  /** Only the library's own descriptors are closed, and those that are not closed stay its own. */
  lemma ClosedAndNow(c: Call, d: int)
    requires Lawful(c)
    ensures d in Closed(c) ==> d in InternalOf(c.ps)
    ensures d in InternalOf(c.ps) && d !in Closed(c) ==> d in Now(c)
  {
    hide Waiting, InternalOf, NewFor, Faithful, Own, Tidy, ClosedBy;
    var s := Reported(c);
    var after := PeersAfter(c.ps, s, c.nets);
    if d in Closed(c) {
      ClosedAreListed(c.ps, |c.ps|, s, c.nets, d);
      var i :| 0 <= i < |c.ps| && d in c.ps[i].conns;
      ConnIsInternal(c.ps, i, d);
    } else if d in InternalOf(c.ps) {
      InternalMembers(c.ps, d);
      var i :| 0 <= i < |c.ps| && d in Own(c.ps[i]);
      StaysOwn(c.ps, s, c.nets, i, d);
      InternalMembers(after, d);
    }
  }

  lemma NowAreDescriptors(c: Call)
    requires Lawful(c)
    ensures -1 !in Now(c)
  {
    hide Waiting, InternalOf, NewFor, Tidy, ClosedBy;
    var after := PeersAfter(c.ps, Reported(c), c.nets);
    InternalMembers(after, -1);
    if -1 in Now(c) {
      var i :| 0 <= i < |after| && -1 in Own(after[i]);
      if c.ps[i].monitoring {
        assert c.ps[i].offer.comfd in Own(c.ps[i]);
        InternalMembers(c.ps, c.ps[i].offer.comfd);
      }
      OwnIsADescriptor(c.ps, Reported(c), c.nets, i);
    }
  }

  /** The call refines a plain `epoll_wait` on the application's own registrations: it reports each
      of them that is ready, in order, with its data and the kernel's mask, and besides the events
      of connections that it closed and of listeners that were closed earlier; and these are its
      only difference. */
  lemma CallTells(c: Call)
    requires Lawful(c)
    ensures |Told(c)| == |Wanted(c)| + Leaks(c.ready, |c.ready|, Closed(c) + c.stale)
    ensures Told(c) == Wanted(c) <==> forall i :: 0 <= i < |c.ready| ==> c.ready[i] !in Closed(c) && c.ready[i] !in c.stale
  {
    hide Faithful, Waiting, InternalOf, NewFor;
    forall d ensures d in Closed(c) ==> d in InternalOf(c.ps)
             ensures d in InternalOf(c.ps) && d !in Closed(c) ==> d in Now(c)
    {
      ClosedAndNow(c, d);
    }
    NowAreDescriptors(c);
    EventsOf(c.es, c.before, c.admitted, InternalOf(c.ps), c.iv, Closed(c), Now(c), c.own, c.stale, c.ready, c.mask, |c.ready|);
    EventsAreTheUsersIff(c.es, c.before, c.admitted, InternalOf(c.ps), c.iv, Closed(c), Now(c), c.own, c.stale, c.ready, c.mask);
  }

  /** One record that has quit monitoring; its listener, once number 7, is kept open by a successor
      and has a request. The application registered nothing. */
  function AfterQuit(): Call {
    Call([Entry(3, 5, Event(0, 0))], [Peer(false, Select.Offer(5, 7, 80), [])], map[7 := Event(EPOLLIN, 7)], {}, {7},
         (i: nat) => true, Event(EPOLLIN, 0), [7], (d: int) => EPOLLIN,
         (i: nat) => Net((j: nat) => -1, (j: nat) => SelectSpec.WouldBlock))
  }

  lemma AfterQuitWatches()
    ensures var c := AfterQuit(); InternalOf(c.ps) == [] && Watched(c) == map[7 := Event(EPOLLIN, 7)]
  {
    var c, m := AfterQuit(), map[7 := Event(EPOLLIN, 7)];
    assert Owns(c.ps)[0] == [] + [] == [];
    assert Concat(Owns(c.ps), 1) == Concat(Owns(c.ps), 0) + [];
    assert ShadowAll(c.es, 1, m, c.admitted) == ShadowPass(c.es[0], ShadowAll(c.es, 0, m, c.admitted), true) == m;
  }

  lemma AfterQuitHandles(s: seq<Event>)
    requires s == [Event(EPOLLIN, 7)]
    ensures var c := AfterQuit();
            && ClosedBy(c.ps, 1, s, c.nets) == {} && NewFor(c.ps, 1, s, c.nets)
            && InternalOf(PeersAfter(c.ps, s, c.nets)) == [] && Marks(s, {}) == s
  {
    var c := AfterQuit();
    assert Marks(s, {}) == s;
    assert Gone(s, 1, c.ps[0], c.nets(0)) == Gone(s, 0, c.ps[0], c.nets(0)) + {} == {};
    assert Accepted(s, 1, c.ps[0], c.nets(0)) == Accepted(s, 0, c.ps[0], c.nets(0)) + [] == [];
    var after := PeersAfter(c.ps, s, c.nets);
    assert Finds(c.ps, 0, s, c.nets) == s;
    assert ClosedBy(c.ps, 1, s, c.nets) == ClosedBy(c.ps, 0, s, c.nets) + {};
    assert NewFor(c.ps, 0, s, c.nets) && New(s, 0, c.ps[0], c.nets(0)) && NewAt(s, 0, c.ps[0], c.nets(0));
    assert ConnsOf(c.ps, 0, s, c.nets) == [];
    assert Owns(after)[0] == [] + [] == [];
    assert Concat(Owns(after), 1) == Concat(Owns(after), 0) + [];
  }

  lemma AfterQuitReports()
    ensures var c := AfterQuit(); AllIn(c.ready, Watched(c)) && Reported(c) == [Event(EPOLLIN, 7)] && Closed(c) == {} && Now(c) == {}
    ensures var c := AfterQuit(); InternalOf(c.ps) == [] && Marks(Reported(c), {}) == Reported(c) && NewFor(c.ps, 1, Reported(c), c.nets)
  {
    hide InternalOf, PeersAfter, ClosedBy, NewFor, Waiting, Marks, Concat;
    AfterQuitWatches();
    var c := AfterQuit();
    assert Reported(c) == [Event(EPOLLIN, 7)];
    AfterQuitHandles(Reported(c));
  }

  lemma AfterQuitIsLawful()
    ensures Lawful(AfterQuit())
  {
    hide InternalOf, PeersAfter, ClosedBy, NewFor, Waiting, Marks, Concat, Closed, Now, Reported;
    AfterQuitReports();
    AfterQuitWatches();
    var c := AfterQuit();
    assert Known(c) == {};
    assert Leftover(7, c.es, {}, {}) && Tidy(c.ps[0]) && Distinct(c.ready);
    assert Faithful(c.es, c.before, [], {}, {}, {7}) && Reported(c)[0] == Event(EPOLLIN, 7);
  }

  /** The leftover of a closed listener reaches an application that never registered it. */
  lemma LeftoverIsReported()
    ensures var c := AfterQuit(); Lawful(c) && Wanted(c) == [] && Told(c) == [Event(EPOLLIN, 7)]
  {
    hide InternalOf, PeersAfter, ClosedBy, NewFor, Waiting, Marks, Concat, Closed, Now, Reported, Lawful;
    AfterQuitIsLawful();
    AfterQuitReports();
    var c := AfterQuit();
    assert Corrected(Reported(c), 0, {}, c.es) == [];
  }

  /** Record `i` reads the end of connection `d` at event `k`. */
  ghost predicate ReadsEnd(ps: seq<Peer>, i: nat, s: seq<Event>, k: nat, nets: nat -> Net, d: int)
    requires i < |ps| && k < |s|
  {
    OnConnection(s[k], ps[i]) && DataFd(s[k].data) == d && nets(i).recv(k).Closed?
  }

  lemma {:induction false} GoneIff(b: seq<Event>, n: nat, p: Peer, net: Net, d: int)
    requires n <= |b|
    ensures d in Gone(b, n, p, net) <==>
      exists k :: 0 <= k < n && OnConnection(b[k], p) && DataFd(b[k].data) == d && net.recv(k).Closed?
  {
    if n > 0 {
      GoneIff(b, n - 1, p, net, d);
    }
  }

  /** Exactly the connections are closed whose end their record reads, whatever the records before
      it made of the events. */
  lemma {:induction false} ClosedIff(ps: seq<Peer>, n: nat, s: seq<Event>, nets: nat -> Net, d: int)
    requires n <= |ps| && Ready(ps, s)
    ensures d in ClosedBy(ps, n, s, nets) <==> exists i, k :: 0 <= i < n && 0 <= k < |s| && ReadsEnd(ps, i, s, k, nets, d)
  {
    hide Ready, Marks, Gone, ReadsEnd, DataFd;
    if n > 0 {
      ClosedIff(ps, n - 1, s, nets, d);
      if d !in ClosedBy(ps, n - 1, s, nets) {
        ClosedNext(ps, n - 1, s, nets, d);
      }
    }
  }

  lemma ClosedNext(ps: seq<Peer>, i: nat, s: seq<Event>, nets: nat -> Net, d: int)
    requires i < |ps| && Ready(ps, s) && d !in ClosedBy(ps, i, s, nets)
    ensures d in ClosedBy(ps, i + 1, s, nets) <==> exists k :: 0 <= k < |s| && ReadsEnd(ps, i, s, k, nets, d)
  {
    hide DataFd, WithFd, Gone, Sole;
    var c, b := ClosedBy(ps, i, s, nets), Finds(ps, i, s, nets);
    assert Tidy(ps[i]);
    GoneIff(b, |s|, ps[i], nets(i), d);
    forall k | 0 <= k < |s|
      ensures ReadsEnd(ps, i, s, k, nets, d) <==> OnConnection(b[k], ps[i]) && DataFd(b[k].data) == d && nets(i).recv(k).Closed?
    {
      DataOfMark(s[k], c);
    }
  }

  /** A record's list changes by what it accepts and what it closes; a record that has quit accepts
      nothing if and only if no event with the number of its former listener can be accepted on. */
  lemma ListBalance(b: seq<Event>, n: nat, p: Peer, net: Net)
    requires n <= |b| && Tidy(p)
    ensures |ConnsAfter(b, n, p, net)| + |Gone(b, n, p, net)| == |p.conns| + |Accepted(b, n, p, net)|
    ensures Accepted(b, n, p, net) == [] <==> forall k :: 0 <= k < n && OnListener(b[k], p) ==> net.accepted(k) == -1
  {
    var g := Gone(b, n, p, net);
    forall d | d in g ensures d in p.conns {
      GoneAre(b, n, p, net, d);
    }
    KeptSize(p.conns, g);
    AcceptsNothingIff(b, n, p, net);
  }

  lemma {:induction false} KeptSize(cs: seq<int>, gone: set<int>)
    requires Distinct(cs) && forall d :: d in gone ==> d in cs
    ensures |Kept(cs, gone)| + |gone| == |cs|
  {
    if cs == [] {
      assert gone == {} by {
        forall d ensures d !in gone {
          assert d in gone ==> d in cs;
        }
      }
    } else {
      TailDistinct(cs);
      var rest := gone - {cs[0]};
      assert cs == [cs[0]] + cs[1..];
      KeptSize(cs[1..], rest);
      if cs[0] in gone {
        KeptWithout(cs[1..], rest, cs[0]);
        assert rest + {cs[0]} == gone;
      } else {
        assert rest == gone;
      }
    }
  }

  lemma {:induction false} AcceptsNothingIff(b: seq<Event>, n: nat, p: Peer, net: Net)
    requires n <= |b|
    ensures Accepted(b, n, p, net) == [] <==> forall k :: 0 <= k < n && OnListener(b[k], p) ==> net.accepted(k) == -1
  {
    if n > 0 {
      AcceptsNothingIff(b, n - 1, p, net);
    }
  }

  /** What the kernel hands out was not open, so nobody had registered it. */
  ghost predicate HandsOutNew(c: Call)
    requires AllIn(c.ready, Watched(c))
  {
    forall d :: d in Now(c) && d !in InternalOf(c.ps) ==>
      0 <= d < 0x8000_0000 && d !in c.before && NoShadow(c.es, d)
  }

  /** The call leaves an interest list that the next one may find: closed connections are out of
      it, accepted ones not yet in it, and everything else is the application's. */
  lemma CallKeepsFaithful(c: Call)
    requires Lawful(c) && HandsOutNew(c)
    ensures Faithful(c.es, Left(c), InternalOf(PeersAfter(c.ps, Reported(c), c.nets)), Known(c), c.own, c.stale)
  {
    LawfulIsNew(c);
    hide Faithful, Watched, InternalOf, NewFor, PeersAfter, Closed, Lawful, AllIn, Reported, HandsOutNew, Left;
    var now := InternalOf(PeersAfter(c.ps, Reported(c), c.nets));
    OldEntriesStay(c);
    forall d ensures d in now && d !in InternalOf(c.ps) ==> d !in Left(c) && 0 <= d < 0x8000_0000 && NoShadow(c.es, d)
             ensures d in Left(c) && d in InternalOf(c.ps) ==> d in now
             ensures d in now <==> d in Now(c)
    {
      NewEntriesAre(c, d);
    }
    InternalsChange(c.es, Left(c), InternalOf(c.ps), now, Known(c), c.own, c.stale);
  }

  lemma OldEntriesStay(c: Call)
    requires Lawful(c)
    ensures Faithful(c.es, Left(c), InternalOf(c.ps), Known(c), c.own, c.stale)
  {
    hide Waiting, InternalOf, NewFor, Faithful, Closed;
    forall d | d in Closed(c) ensures d in InternalOf(c.ps) {
      ClosedAndNow(c, d);
    }
    FaithfulStays(c.es, c.before, c.admitted, InternalOf(c.ps), c.iv, Closed(c), Known(c), c.own, c.stale);
  }

  lemma NewEntriesAre(c: Call, d: int)
    requires Lawful(c) && HandsOutNew(c)
    ensures d in Now(c) && d !in InternalOf(c.ps) ==> d !in Left(c) && 0 <= d < 0x8000_0000 && NoShadow(c.es, d)
    ensures d in Left(c) && d in InternalOf(c.ps) ==> d in Now(c)
  {
    hide Waiting, InternalOf, NewFor, Closed, Now;
    forall e | e in Closed(c) ensures e in InternalOf(c.ps) {
      ClosedAndNow(c, e);
    }
    ClosedAndNow(c, d);
    Normalises(c.es, c.before, c.admitted, InternalOf(c.ps), c.iv, Closed(c));
    if d in Now(c) && d !in InternalOf(c.ps) {
      assert Foreign(c.es, |c.es|, d);
      assert Get(Left(c), d) == Get(c.before, d);
    }
    if d in Closed(c) {
      ClosedIsOut(c, d);
    }
  }

  lemma ClosedIsOut(c: Call, d: int)
    requires Lawful(c) && d in Closed(c)
    ensures d !in Left(c)
  {
    hide Waiting, InternalOf, NewFor, Closed;
    ClosedAndNow(c, d);
    assert Foreign(c.es, |c.es|, d);
    OriginalAllForeign(c.es, |c.es|, Watched(c) - Closed(c), d);
  }

  // ---------------------------------------------------------------- the call, in place

  datatype Kernel = Failure | Reports(ready: seq<int>, mask: int -> int)

  /** The call has this answer. */
  ghost predicate AnsweredBy(c: Call, answer: Kernel) {
    && AllIn(c.ready, Watched(c))
    && match answer
       case Failure => c.ready == []
       case Reports(ready, mask) => c.ready == ready && c.mask == mask
  }

  /** What the call finds in the records. */
  ghost predicate Finding(rs: seq<Record>, es: seq<Entry>, ps: seq<Peer>)
    reads rs, set r | r in rs :: r.comfds
  {
    && Shows(rs, es) && Offers(rs, ps)
    && forall i {:trigger rs[i]} :: 0 <= i < |rs| ==> rs[i].comfds.Valid() && rs[i].comfds.Items() == ps[i].conns
  }

  ghost predicate Admitted(rs: seq<Record>, seen: nat -> Seen, admitted: nat -> bool)
    reads rs
  {
    forall i {:trigger rs[i]} :: 0 <= i < |rs| ==>
      admitted(i) == (rs[i].monitoring && (seen(i).status.transfer > 0 && rs[i].blocking ==> seen(i).fdSem > 0))
  }

  /** The bind list holds the records; clients' lists are well-formed, and none of `lists`. */
  ghost predicate Table(binds: List<Record>, rs: seq<Record>, lists: set<List<int>>)
    reads binds, set r | r in rs :: r.fds
  {
    binds.Valid() && rs == binds.Items() && forall i {:trigger rs[i]} :: 0 <= i < |rs| ==> rs[i].fds.Valid() && rs[i].fds !in lists
  }

  ghost predicate Scene(binds: List<Record>, rs: seq<Record>, es: seq<Entry>, ps: seq<Peer>, ports: set<Port>, lists: set<List<int>>,
                        sos: seq<(Status, Flags)>, sems: seq<int>)
    reads binds, rs, set r | r in rs :: r.comfds, set r | r in rs :: r.fds, set r | r in rs :: r.shared
  {
    && SelectCall.Different(rs) && SelectCall.Within(rs, ports, lists) && Table(binds, rs, lists) && Finding(rs, es, ps)
    && Core.Stands(rs, sos, sems)
  }

  /** Which records get the lock. */
  ghost predicate Gotten(rs: seq<Record>, seen: nat -> Seen, gots: seq<bool>)
    reads rs
  {
    |gots| == |rs| && forall i {:trigger rs[i]} :: 0 <= i < |rs| ==> gots[i] == Got(rs[i], seen(i))
  }

  method AskKernel(instance: Instance, events: array<Event>, answer: Kernel, ghost c: Call,
                   ghost binds: List<Record>, ghost rs: seq<Record>, ghost ports: set<Port>, ghost lists: set<List<int>>,
                   ghost sos: seq<(Status, Flags)>, ghost sems: seq<int>)
    returns (nfds: int)
    requires AnsweredBy(c, answer) && instance.interest == Watched(c) && |c.ready| <= events.Length
    requires Scene(binds, rs, c.es, c.ps, ports, lists, sos, sems)
    modifies events
    ensures Scene(binds, rs, c.es, c.ps, ports, lists, sos, sems)
    ensures answer.Failure? ==> nfds == -1 && events[..] == old(events[..])
    ensures answer.Reports? ==> nfds >= 0
    ensures |c.ready| == (if nfds < 0 then 0 else nfds) && events[..|c.ready|] == Reported(c)
  {
    hide Watched, Scene;
    if answer.Failure? { return -1; }
    nfds := |answer.ready|;
    for i := 0 to nfds
      invariant events[..i] == Report(instance.interest, answer.ready, answer.mask)[..i]
    {
      var d := answer.ready[i];
      events[i] := Event(answer.mask(d), instance.interest[d].data);
      assert events[..i + 1] == events[..i] + [events[i]];
    }
  }

  lemma FindingWatches(rs: seq<Record>, es: seq<Entry>, ps: seq<Peer>)
    requires Finding(rs, es, ps)
    ensures Watches(rs, Owns(ps))
  {
    hide List.Items, List.Valid;
  }

  method ShadowEach(instance: Instance, rs: seq<Record>, seen: nat -> Seen, ghost es: seq<Entry>, ghost admitted: nat -> bool,
                    ghost ports: set<Port>, ghost lists: set<List<int>>,
                    ghost sos: seq<(Status, Flags)>, ghost sems: seq<int>, ghost gots: seq<bool>)
    requires SelectCall.Different(rs) && SelectCall.Within(rs, ports, lists) && Shows(rs, es) && Admitted(rs, seen, admitted)
    requires Core.Stands(rs, sos, sems) && Gotten(rs, seen, gots)
    modifies instance, rs`locked, ports
    ensures instance.interest == ShadowAll(es, |es|, old(instance.interest), admitted)
    ensures |sos| == |gots| && Core.Stands(rs, Core.Taken(sos, seen, gots), Core.Levels(seen, gots))
  {
    hide ShadowAll, List.Valid, List.Items;
    ShadowFds(instance, rs, seen, es, admitted, ports);
  }

  method ShadowAllFds(instance: Instance, rs: seq<Record>, seen: nat -> Seen, ghost c: Call, ghost ports: set<Port>,
                      ghost lists: set<List<int>>, ghost sos: seq<(Status, Flags)>, ghost sems: seq<int>, ghost gots: seq<bool>)
    requires SelectCall.Different(rs) && SelectCall.Within(rs, ports, lists) && Finding(rs, c.es, c.ps) && Admitted(rs, seen, c.admitted)
    requires Core.Stands(rs, sos, sems) && Gotten(rs, seen, gots)
    modifies instance, rs`locked, ports
    ensures Finding(rs, c.es, c.ps) && instance.interest == ShadowAll(c.es, |c.es|, old(instance.interest), c.admitted)
    ensures |sos| == |gots| && Core.Stands(rs, Core.Taken(sos, seen, gots), Core.Levels(seen, gots))
  {
    hide ShadowAll, List.Valid, List.Items, Core.Stands, Gotten, Admitted, SelectCall.Different, SelectCall.Within;
    ShadowEach(instance, rs, seen, c.es, c.admitted, ports, lists, sos, sems, gots);
  }

  /** `dsu_pre_epoll`. */
  method PreEpoll(instance: Instance, rs: seq<Record>, seen: nat -> Seen, fill: int, ghost c: Call,
                  ghost ports: set<Port>, ghost lists: set<List<int>>, ghost binds: List<Record>,
                  ghost sos: seq<(Status, Flags)>, ghost sems: seq<int>, ghost gots: seq<bool>)
    requires Scene(binds, rs, c.es, c.ps, ports, lists, sos, sems) && Admitted(rs, seen, c.admitted) && Gotten(rs, seen, gots)
    requires c.before == instance.interest && c.iv == Event(EPOLLIN, fill)
    modifies instance, rs`locked, ports
    ensures |sos| == |gots| && Scene(binds, rs, c.es, c.ps, ports, lists, Core.Taken(sos, seen, gots), Core.Levels(seen, gots))
    ensures instance.interest == Watched(c)
  {
    hide ShadowAll, AddAll, Concat, List.Valid, List.Items, Finding, Table, Admitted, Core.Stands, Gotten;
    SameNumber(rs, sos, sems, seen, gots);
    ShadowAllFds(instance, rs, seen, c, ports, lists, sos, sems, gots);
    FindingWatches(rs, c.es, c.ps);
    InternalConns(instance, rs, fill, Owns(c.ps));
  }

  lemma SameNumber(rs: seq<Record>, sos: seq<(Status, Flags)>, sems: seq<int>, seen: nat -> Seen, gots: seq<bool>)
    requires Core.Stands(rs, sos, sems) && Gotten(rs, seen, gots)
    ensures |sos| == |sems| == |gots| == |rs|
  {
  }

  /** `dsu_epoll_unlock` for every record: whoever holds the lock posts it. */
  method UnlockFds(rs: seq<Record>, ghost ports: set<Port>, ghost sos: seq<(Status, Flags)>, ghost sems: seq<int>)
    requires (forall i :: 0 <= i < |rs| ==> rs[i].shared in ports) && SelectCall.Different(rs) && Core.Stands(rs, sos, sems)
    modifies rs`locked, ports`fdSem
    ensures |sos| == |sems| && Core.Stands(rs, Core.Given(sos), Core.Posted(sos, sems))
    ensures forall i {:trigger rs[i]} :: 0 <= i < |rs| ==>
      !rs[i].locked && rs[i].shared.fdSem == old(rs[i].shared.fdSem) + if old(rs[i].locked) then 1 else 0
  {
    for i := 0 to |rs|
      invariant forall j {:trigger rs[j]} :: i <= j < |rs| ==> rs[j].shared.fdSem == sems[j] && rs[j].locked == sos[j].1.locked
      invariant forall j {:trigger rs[j]} :: 0 <= j < i ==>
        !rs[j].locked && rs[j].shared.fdSem == sems[j] + if sos[j].1.locked then 1 else 0
    {
      Core.UnlockFd(rs[i]);
    }
  }

  method UnlockAll(rs: seq<Record>, ghost es: seq<Entry>, ghost ps: seq<Peer>, ghost ports: set<Port>, ghost lists: set<List<int>>,
                   ghost sos: seq<(Status, Flags)>, ghost sems: seq<int>)
    requires SelectCall.Within(rs, ports, lists) && SelectCall.Different(rs) && Finding(rs, es, ps) && Core.Stands(rs, sos, sems)
    modifies rs`locked, ports`fdSem
    ensures Finding(rs, es, ps)
    ensures |sos| == |sems| && Core.Stands(rs, Core.Given(sos), Core.Posted(sos, sems))
  {
    hide List.Valid, List.Items, Core.Stands, SelectCall.Different;
    UnlockFds(rs, ports, sos, sems);
  }

  lemma StandIsFinding(rs: seq<Record>, es: seq<Entry>, ps: seq<Peer>, s: seq<Event>, nets: nat -> Net, sos: seq<(Status, Flags)>)
    requires Shows(rs, es) && Offers(rs, ps) && Stand(rs, ListsAt(ps, |ps|, s, nets), sos)
    ensures Finding(rs, es, PeersAfter(ps, s, nets))
  {
    hide List.Valid, List.Items, ConnsOf;
  }

  lemma FindingStands(rs: seq<Record>, es: seq<Entry>, ps: seq<Peer>, s: seq<Event>, nets: nat -> Net,
                      sos: seq<(Status, Flags)>, sems: seq<int>)
    requires Finding(rs, es, ps) && Core.Stands(rs, sos, sems)
    ensures |ps| == |rs| == |sos| && Shows(rs, es) && Offers(rs, ps) && Stand(rs, ListsAt(ps, 0, s, nets), sos)
  {
    hide List.Valid, List.Items, ConnsOf;
  }

  lemma LawfulIsNew(c: Call)
    requires Lawful(c)
    ensures AllIn(c.ready, Watched(c)) && NewFor(c.ps, |c.ps|, Reported(c), c.nets)
  {
  }

  /** The semaphores alone. */
  ghost predicate Semaphores(rs: seq<Record>, sems: seq<int>)
    reads rs, set r | r in rs :: r.shared
  {
    |sems| == |rs| && forall i {:trigger rs[i]} :: 0 <= i < |rs| ==> rs[i].shared.fdSem == sems[i]
  }

  lemma StandsAgain(rs: seq<Record>, items: seq<seq<int>>, sos: seq<(Status, Flags)>, sems: seq<int>)
    requires Stand(rs, items, sos) && Semaphores(rs, sems)
    ensures Core.Stands(rs, sos, sems)
  {
    hide List.Valid, List.Items;
  }

  /** The pass leaves the semaphores alone. */
  method HandleAllConns(instance: Instance, rs: seq<Record>, events: array<Event>, n: nat, nets: nat -> Net, ghost ps: seq<Peer>,
                        ghost sos: seq<(Status, Flags)>, ghost ports: set<Port>, ghost lists: set<List<int>>, ghost sems: seq<int>)
    returns (sent: seq<Select.Sent>)
    requires n <= events.Length && SelectCall.Different(rs) && SelectCall.Within(rs, ports, lists)
    requires |ps| == |rs| == |sos| && Offers(rs, ps) && Stand(rs, ListsAt(ps, 0, events[..n], nets), sos)
    requires Ready(ps, events[..n]) && NewFor(ps, |ps|, events[..n], nets) && Semaphores(rs, sems)
    modifies instance, events, rs`transfer, ports`transfer, lists
    ensures var s := old(events[..n]);
            && events[..n] == Finds(ps, |ps|, s, nets) && events[n..] == old(events[n..])
            && instance.interest == old(instance.interest) - ClosedBy(ps, |ps|, s, nets)
            && sent == RepliesBy(ps, |ps|, s, nets)
            && Stand(rs, ListsAt(ps, |ps|, s, nets), StandingsAt(ps, |ps|, s, nets, sos))
    ensures Offers(rs, ps) && Semaphores(rs, sems)
  {
    hide Stand, Offers, Ready, NewFor, Finds, ClosedBy, RepliesBy, ListsAt, StandingsAt, SelectCall.Different, SelectCall.Within;
    sent := HandleConns(instance, rs, events, n, nets, ps, sos, ports, lists);
  }

  /** The internal messages of the call. */
  method HandleMessages(instance: Instance, binds: List<Record>, rs: seq<Record>, events: array<Event>, n: nat, ghost c: Call,
                        nets: nat -> Net, ghost ports: set<Port>, ghost lists: set<List<int>>,
                        ghost sos: seq<(Status, Flags)>, ghost sems: seq<int>)
    returns (sent: seq<Select.Sent>)
    requires SelectCall.Different(rs) && SelectCall.Within(rs, ports, lists) && Table(binds, rs, lists) && Finding(rs, c.es, c.ps)
    requires Core.Stands(rs, sos, sems)
    requires Lawful(c) && c.nets == nets && n == |c.ready| <= events.Length && events[..n] == Reported(c)
    modifies instance, events, rs`transfer, ports`transfer, lists
    ensures Table(binds, rs, lists) && Finding(rs, c.es, PeersAfter(c.ps, Reported(c), nets))
    ensures |c.ps| == |sos| && Core.Stands(rs, StandingsAt(c.ps, |c.ps|, Reported(c), nets, sos), sems)
    ensures events[..n] == Marks(Reported(c), Closed(c)) && events[n..] == old(events[n..])
    ensures instance.interest == old(instance.interest) - Closed(c)
    ensures sent == RepliesBy(c.ps, |c.ps|, Reported(c), nets)
  {
    hide List.Valid, List.Items, ClosedBy, NewFor, Ready, Lawful, ConnsOf, RepliesBy, SelectCall.Different, SelectCall.Within;
    hide Finding, Offers, Stand, ListsAt, StandingsAt, PeersAfter, Watched, Semaphores;
    ReportsAreSole(c);
    LawfulIsNew(c);
    ghost var s := Reported(c);
    FindingStands(rs, c.es, c.ps, s, nets, sos, sems);
    assert Semaphores(rs, sems) by { StandsLevels(rs, sos, sems); }
    hide Core.Stands;
    sent := HandleAllConns(instance, rs, events, n, nets, c.ps, sos, ports, lists, sems);
    ghost var after := StandingsAt(c.ps, |c.ps|, s, nets, sos);
    StandIsFinding(rs, c.es, c.ps, s, nets, after);
    StandsAgain(rs, ListsAt(c.ps, |c.ps|, s, nets), after, sems);
  }

  lemma StandsLevels(rs: seq<Record>, sos: seq<(Status, Flags)>, sems: seq<int>)
    requires Core.Stands(rs, sos, sems)
    ensures Semaphores(rs, sems)
  {
  }

  lemma OwnIsInternal(rs: seq<Record>, es: seq<Entry>, ps: seq<Peer>)
    requires Finding(rs, es, ps)
    ensures IsInternalSet(rs, SetOf(InternalOf(ps)))
  {
    hide List.Items, List.Valid, InternalOf;
    forall d ensures d in SetOf(InternalOf(ps)) <==> Internally(rs, d) {
      InternalMembers(ps, d);
      assert forall i :: 0 <= i < |rs| ==> (d in Own(ps[i]) <==> (rs[i].comfd == d && rs[i].monitoring) || d in rs[i].comfds.Items());
    }
  }

  lemma FindingLooks(binds: List<Record>, rs: seq<Record>, lists: set<List<int>>, es: seq<Entry>, ps: seq<Peer>)
    requires Table(binds, rs, lists) && Finding(rs, es, ps)
    ensures Looks(binds, rs, es, SetOf(InternalOf(ps)))
  {
    OwnIsInternal(rs, es, ps);
    hide List.Items, List.Valid, InternalOf, IsInternalSet, Offers;
  }

  /** `dsu_post_epoll` after the internal messages: unlock, rename back, correct the events. */
  method TranslateBack(instance: Instance, binds: List<Record>, rs: seq<Record>, nfds: int, events: array<Event>,
                       ghost es: seq<Entry>, ghost ps: seq<Peer>, ghost ports: set<Port>, ghost lists: set<List<int>>,
                       ghost sos: seq<(Status, Flags)>, ghost sems: seq<int>)
    returns (n: int)
    requires Scene(binds, rs, es, ps, ports, lists, sos, sems) && nfds <= events.Length
    modifies instance, events, rs`locked, ports`fdSem
    ensures |sos| == |sems| && Scene(binds, rs, es, ps, ports, lists, Core.Given(sos), Core.Posted(sos, sems))
    ensures instance.interest == OriginalAll(es, |es|, old(instance.interest))
    ensures nfds <= 0 ==> n == nfds && events[..] == old(events[..])
    ensures nfds >= 0 ==> var left := Corrected(old(events[..nfds]), nfds, SetOf(InternalOf(ps)), es);
                          n == |left| && events[..n] == left
    ensures GivenBack(rs, sos, sems)
  {
    hide OriginalAll, Corrected, InternalOf, List.Valid, List.Items, Core.Stands, SelectCall.Different, SelectCall.Within;
    hide GivenBack;
    UnlockAll(rs, es, ps, ports, lists, sos, sems);
    OriginalFds(instance, rs, es);
    FindingLooks(binds, rs, lists, es, ps);
    n := CorrectEvents(nfds, events, binds, rs, es, SetOf(InternalOf(ps)));
    AllBack(rs, sos, sos, sems);
  }

  /** Nobody holds a lock, and whoever held one, when records and semaphores stood so, posted it. */
  ghost predicate GivenBack(rs: seq<Record>, sos: seq<(Status, Flags)>, sems: seq<int>)
    reads rs, set r | r in rs :: r.shared
  {
    && |sos| == |sems| == |rs|
    && forall i {:trigger rs[i]} :: 0 <= i < |rs| ==>
         !rs[i].locked && rs[i].shared.fdSem == sems[i] + if sos[i].1.locked then 1 else 0
  }

  lemma AllBack(rs: seq<Record>, sos: seq<(Status, Flags)>, end: seq<(Status, Flags)>, sems: seq<int>)
    requires |end| == |sems| == |sos| && forall i :: 0 <= i < |sos| ==> end[i].1.locked == sos[i].1.locked
    requires Core.Stands(rs, Core.Given(end), Core.Posted(end, sems))
    ensures GivenBack(rs, sos, sems)
  {
  }

  lemma EndedLocks(c: Call, sos: seq<(Status, Flags)>)
    requires AllIn(c.ready, Watched(c)) && |c.ps| == |sos|
    ensures |Ended(c, sos)| == |sos| && forall i :: 0 <= i < |sos| ==> Ended(c, sos)[i].1.locked == sos[i].1.locked
  {
    hide Finds, Answered, Watched, AllIn;
    forall i | 0 <= i < |sos| ensures Ended(c, sos)[i].1.locked == sos[i].1.locked {
      assert Ended(c, sos)[i] == Core.Count(sos[i], Answered(Finds(c.ps, i, Reported(c), c.nets), |Reported(c)|, c.ps[i], c.nets(i)));
    }
  }

  lemma CallAfter(c: Call)
    requires AllIn(c.ready, Watched(c))
    ensures OriginalAll(c.es, |c.es|, Watched(c) - Closed(c)) == Left(c)
    ensures |Marks(Reported(c), Closed(c))| == |c.ready| && |Told(c)| <= |c.ready|
    ensures Corrected(Marks(Reported(c), Closed(c)), |c.ready|, SetOf(InternalOf(PeersAfter(c.ps, Reported(c), c.nets))), c.es) == Told(c)
  {
  }

  /** How the records stand at the end of the call. */
  ghost function Ended(c: Call, sos: seq<(Status, Flags)>): seq<(Status, Flags)>
    requires AllIn(c.ready, Watched(c)) && |c.ps| == |sos|
  {
    StandingsAt(c.ps, |c.ps|, Reported(c), c.nets, sos)
  }

  /** `dsu_post_epoll`. */
  method PostEpoll(instance: Instance, binds: List<Record>, rs: seq<Record>, nfds: int, events: array<Event>, nets: nat -> Net,
                   ghost c: Call, ghost ports: set<Port>, ghost lists: set<List<int>>,
                   ghost sos: seq<(Status, Flags)>, ghost sems: seq<int>)
    returns (n: int, sent: seq<Select.Sent>)
    requires Scene(binds, rs, c.es, c.ps, ports, lists, sos, sems)
    requires Lawful(c) && c.nets == nets && instance.interest == Watched(c)
    requires |c.ready| == (if nfds < 0 then 0 else nfds) <= events.Length && events[..|c.ready|] == Reported(c)
    modifies instance, events, rs`transfer, rs`locked, ports`transfer, ports`fdSem, lists
    ensures n == (if nfds < 0 then nfds else |Told(c)|)
    ensures if nfds < 0 then events[..] == old(events[..]) else n <= nfds && events[..n] == Told(c)
    ensures instance.interest == Left(c)
    ensures |c.ps| == |sos| && |Ended(c, sos)| == |sems|
    ensures Scene(binds, rs, c.es, PeersAfter(c.ps, Reported(c), nets), ports, lists, Core.Given(Ended(c, sos)), Core.Posted(Ended(c, sos), sems))
    ensures sent == RepliesBy(c.ps, |c.ps|, Reported(c), nets)
    ensures GivenBack(rs, sos, sems)
  {
    LawfulIsNew(c);
    EndedLocks(c, sos);
    hide Lawful, OriginalAll, Corrected, Marks, RepliesBy, PeersAfter, InternalOf, SelectCall.Different;
    hide Finding, Table, SelectCall.Within, AllIn, List.Items, List.Valid, SetOf, Watched, Closed, Told, Left, Reported, Now;
    hide Core.Stands, StandingsAt, GivenBack, Ended;
    ghost var now := PeersAfter(c.ps, Reported(c), nets);
    CallAfter(c);
    sent := HandleMessages(instance, binds, rs, events, if nfds < 0 then 0 else nfds, c, nets, ports, lists, sos, sems);
    n := TranslateBack(instance, binds, rs, nfds, events, c.es, now, ports, lists, Ended(c, sos), sems);
    AllBack(rs, sos, Ended(c, sos), sems);
  }

  /** `epoll_wait` after the state handler, on the records of the bind list. */
  method WaitOn(instance: Instance, binds: List<Record>, rs: seq<Record>, events: array<Event>, seen: nat -> Seen, fill: int,
                answer: Kernel, nets: nat -> Net, ghost c: Call, ghost ports: set<Port>, ghost lists: set<List<int>>,
                ghost sos: seq<(Status, Flags)>, ghost sems: seq<int>, ghost gots: seq<bool>)
    returns (n: int, sent: seq<Select.Sent>)
    requires Scene(binds, rs, c.es, c.ps, ports, lists, sos, sems) && Admitted(rs, seen, c.admitted) && Gotten(rs, seen, gots)
    requires c.before == instance.interest && c.iv == Event(EPOLLIN, fill) && c.nets == nets
    requires AnsweredBy(c, answer) && Lawful(c) && |c.ready| <= events.Length
    modifies instance, events, rs`transfer, rs`locked, ports, lists
    ensures answer.Failure? ==> n == -1 && events[..] == old(events[..])
    ensures answer.Reports? ==> n == |Told(c)| <= events.Length && events[..n] == Told(c)
    ensures instance.interest == Left(c)
    ensures |sos| == |gots| == |c.ps|
    ensures var end := Ended(c, Core.Taken(sos, seen, gots));
            && |end| == |gots|
            && Scene(binds, rs, c.es, PeersAfter(c.ps, Reported(c), nets), ports, lists, Core.Given(end), Core.Posted(end, Core.Levels(seen, gots)))
    ensures sent == RepliesBy(c.ps, |c.ps|, Reported(c), nets)
  {
    hide Finding, Table, Known, Report;
    LawfulIsNew(c);
    hide Lawful, RepliesBy, PeersAfter, InternalOf, Scene, Admitted, Gotten, Ended;
    hide SetOf, Watched, Closed, Told, Left, Reported, List.Valid, AnsweredBy, AllIn;
    PreEpoll(instance, rs, seen, fill, c, ports, lists, binds, sos, sems, gots);
    ghost var so1, sem1 := Core.Taken(sos, seen, gots), Core.Levels(seen, gots);
    var nfds := AskKernel(instance, events, answer, c, binds, rs, ports, lists, so1, sem1);
    n, sent := PostEpoll(instance, binds, rs, nfds, events, nets, c, ports, lists, so1, sem1);
  }

  /** The same; who got the lock can be told afterwards as well. */
  method WaitAndTell(instance: Instance, binds: List<Record>, rs: seq<Record>, events: array<Event>, seen: nat -> Seen, fill: int,
                answer: Kernel, nets: nat -> Net, ghost c: Call, ghost ports: set<Port>, ghost lists: set<List<int>>,
                ghost sos: seq<(Status, Flags)>, ghost sems: seq<int>, ghost gots: seq<bool>)
    returns (n: int, sent: seq<Select.Sent>)
    requires Scene(binds, rs, c.es, c.ps, ports, lists, sos, sems) && Admitted(rs, seen, c.admitted) && Gotten(rs, seen, gots)
    requires c.before == instance.interest && c.iv == Event(EPOLLIN, fill) && c.nets == nets
    requires AnsweredBy(c, answer) && Lawful(c) && |c.ready| <= events.Length
    modifies instance, events, rs`transfer, rs`locked, ports, lists
    ensures answer.Failure? ==> n == -1 && events[..] == old(events[..])
    ensures answer.Reports? ==> n == |Told(c)| <= events.Length && events[..n] == Told(c)
    ensures instance.interest == Left(c)
    ensures |sos| == |gots| == |c.ps|
    ensures var end := Ended(c, Core.Taken(sos, seen, gots));
            && |end| == |gots|
            && Scene(binds, rs, c.es, PeersAfter(c.ps, Reported(c), nets), ports, lists, Core.Given(end), Core.Posted(end, Core.Levels(seen, gots)))
    ensures sent == RepliesBy(c.ps, |c.ps|, Reported(c), nets)
    ensures Gotten(rs, seen, gots)
  {
    hide Scene, Lawful, RepliesBy, PeersAfter, InternalOf, Closed, Told, Left, Reported, AnsweredBy, Admitted, Ended, List.Valid;
    hide Core.Taken, Core.Levels, Core.Given, Core.Posted;
    n, sent := WaitOn(instance, binds, rs, events, seen, fill, answer, nets, c, ports, lists, sos, sems, gots);
  }

  /** The end of the call in plain terms: every lock is given back, and nothing else is posted; a
      record that answered a request counts itself once. `f` are the flags the record had. */
  ghost predicate EndsAs(r: Record, f: Flags, seen: Seen, told: bool)
    reads r, r.shared
  {
    && !r.locked && r.version == f.version && r.monitoring == f.monitoring
    && r.shared.fdSem == seen.fdSem
         + (if f.locked && !(r.monitoring && r.ev.events != 0 && r.blocking && seen.status.transfer > 0 && seen.fdSem > 0)
            then 1 else 0)
    && r.transfer == (f.transfer || told)
    && r.shared.pgid == seen.status.pgid && r.shared.version == seen.status.version
    && r.shared.transfer == seen.status.transfer + (if told && !f.transfer then 1 else 0)
  }

  /** The record answered a request in this call. */
  ghost predicate AnsweredIn(c: Call, i: nat)
    requires AllIn(c.ready, Watched(c)) && i < |c.ps|
  {
    Requested(Finds(c.ps, i, Reported(c), c.nets), |c.ready|, c.ps[i].conns, c.ps[i].offer.comfd, c.ps[i].offer.port, c.nets(i))
  }

  lemma EndIs(rs: seq<Record>, c: Call, seen: nat -> Seen, sos: seq<(Status, Flags)>, gots: seq<bool>)
    requires AllIn(c.ready, Watched(c)) && |sos| == |gots| == |c.ps| == |rs| && Gotten(rs, seen, gots)
    requires var end := Ended(c, Core.Taken(sos, seen, gots)); |end| == |gots| && Core.Stands(rs, Core.Given(end), Core.Posted(end, Core.Levels(seen, gots)))
    ensures forall i {:trigger rs[i]} :: 0 <= i < |rs| ==> EndsAs(rs[i], sos[i].1, seen(i), AnsweredIn(c, i))
  {
    hide Finds, Answered, Requested, Watched, AllIn;
    forall i | 0 <= i < |rs| ensures EndsAs(rs[i], sos[i].1, seen(i), AnsweredIn(c, i)) {
      AnsweredIff(Finds(c.ps, i, Reported(c), c.nets), |c.ready|, c.ps[i], c.nets(i));
    }
  }

  /** `epoll_wait` after the state handler. */
  method EpollWait(instance: Instance, binds: List<Record>, events: array<Event>, seen: nat -> Seen, fill: int, answer: Kernel,
                   nets: nat -> Net, ghost rs: seq<Record>, ghost c: Call, ghost ports: set<Port>, ghost lists: set<List<int>>,
                   ghost sos: seq<(Status, Flags)>, ghost sems: seq<int>, ghost gots: seq<bool>)
    returns (n: int, sent: seq<Select.Sent>)
    requires Scene(binds, rs, c.es, c.ps, ports, lists, sos, sems) && Admitted(rs, seen, c.admitted) && Gotten(rs, seen, gots)
    requires c.before == instance.interest && c.iv == Event(EPOLLIN, fill) && c.nets == nets
    requires AnsweredBy(c, answer) && Lawful(c) && |c.ready| <= events.Length
    modifies instance, events, rs`transfer, rs`locked, ports, lists
    ensures answer.Failure? ==> n == -1 && events[..] == old(events[..])
    ensures answer.Reports? ==> n == |Told(c)| <= events.Length && events[..n] == Told(c)
    ensures instance.interest == Left(c)
    ensures Finding(rs, c.es, PeersAfter(c.ps, Reported(c), nets))
    ensures sent == RepliesBy(c.ps, |c.ps|, Reported(c), nets)
    ensures |c.ps| == |rs| && forall i {:trigger rs[i]} :: 0 <= i < |rs| ==>
      EndsAs(rs[i], old(rs[i].Flags()), seen(i), AnsweredIn(c, i))
  {
    hide Lawful, RepliesBy, PeersAfter, InternalOf, Closed, Told, Left, Reported, Admitted, List.Valid, List.Items;
    hide Scene, Gotten, Core.Taken, Core.Levels, Core.Given, Core.Posted, Ended, EndsAs, AnsweredIn;
    SceneHas(binds, rs, c.es, c.ps, ports, lists, sos, sems);
    hide Finding, Core.Stands;
    var all := WalkScene(binds, rs, c.es, c.ps, ports, lists, sos, sems);
    n, sent := WaitAndTell(instance, binds, all, events, seen, fill, answer, nets, c, ports, lists, sos, sems, gots);
    ghost var end := Ended(c, Core.Taken(sos, seen, gots));
    SceneHas(binds, rs, c.es, PeersAfter(c.ps, Reported(c), nets), ports, lists, Core.Given(end), Core.Posted(end, Core.Levels(seen, gots)));
    EndIs(rs, c, seen, sos, gots);
  }

  lemma SceneHas(binds: List<Record>, rs: seq<Record>, es: seq<Entry>, ps: seq<Peer>, ports: set<Port>, lists: set<List<int>>,
                 sos: seq<(Status, Flags)>, sems: seq<int>)
    requires Scene(binds, rs, es, ps, ports, lists, sos, sems)
    ensures |ps| == |sos| == |sems| == |rs| && Finding(rs, es, ps) && Core.Stands(rs, sos, sems)
    ensures forall i {:trigger rs[i]} :: 0 <= i < |rs| ==> rs[i].Flags() == sos[i].1
  {
  }

  method WalkScene(binds: List<Record>, ghost rs: seq<Record>, ghost es: seq<Entry>, ghost ps: seq<Peer>,
                   ghost ports: set<Port>, ghost lists: set<List<int>>, ghost sos: seq<(Status, Flags)>, ghost sems: seq<int>)
    returns (all: seq<Record>)
    requires Scene(binds, rs, es, ps, ports, lists, sos, sems)
    ensures all == rs
  {
    all := binds.Walk();
  }
}
