/** `dsu_handle_conn_epoll`: the events that the kernel reported, as one record after the other
    handles those that are its own, in place and as functions on values. */
module EpollMessages {
  import opened Steps
  import opened State
  import opened EpollSpec
  import opened Epoll
  import Select
  import SelectSpec
  import SelectCall
  import Core

  // ---------------------------------------------------------------- one record, all events

  /** What a record brings to the pass over the events. */
  datatype Peer = Peer(monitoring: bool, offer: Select.Offer, conns: seq<int>)

  /** What the kernel answers while a record handles the events, by their positions. */
  datatype Net = Net(accepted: nat -> int, recv: nat -> SelectSpec.Recv)

  /** How far the pass has come. */
  datatype Walk = Walk(events: seq<Event>, conns: seq<int>, interest: Interest, answered: bool, sent: seq<Select.Sent>)

  function Visit(w: Walk, j: nat, offer: Select.Offer, accepted: int, recv: SelectSpec.Recv): Walk
    requires j < |w.events|
  {
    var e := w.events[j];
    var d := DataFd(e.data);
    if e.events == 0 then w
    else if d == offer.comfd then w.(conns := if accepted != -1 then w.conns + [accepted] else w.conns)
    else if d !in w.conns then w
    else if recv.Closed? then
      w.(events := w.events[j := Event(e.events, WithFd(e.data, -1))],
         conns := RemoveFirst(w.conns, d), interest := Del(w.interest, d))
    else w.(answered := w.answered || (recv.Message? && offer.port != -1), sent := w.sent + Select.Answer(d, recv, offer))
  }

  predicate OnListener(e: Event, p: Peer) { e.events != 0 && DataFd(e.data) == p.offer.comfd }

  predicate OnConnection(e: Event, p: Peer) {
    e.events != 0 && DataFd(e.data) != p.offer.comfd && DataFd(e.data) in p.conns
  }

  /** The connections accepted, closed and answered in the first `n` events. */
  function Accepted(b: seq<Event>, n: nat, p: Peer, net: Net): seq<int>
    requires n <= |b|
  {
    if n == 0 then []
    else Accepted(b, n - 1, p, net) + if OnListener(b[n - 1], p) && net.accepted(n - 1) != -1 then [net.accepted(n - 1)] else []
  }

  function Gone(b: seq<Event>, n: nat, p: Peer, net: Net): set<int>
    requires n <= |b|
  {
    if n == 0 then {}
    else Gone(b, n - 1, p, net) + if OnConnection(b[n - 1], p) && net.recv(n - 1).Closed? then {DataFd(b[n - 1].data)} else {}
  }

  predicate Answered(b: seq<Event>, n: nat, p: Peer, net: Net)
    requires n <= |b|
  {
    n > 0 && (Answered(b, n - 1, p, net) || (OnConnection(b[n - 1], p) && net.recv(n - 1).Message? && p.offer.port != -1))
  }

  function Replies(b: seq<Event>, n: nat, p: Peer, net: Net): seq<Select.Sent>
    requires n <= |b|
  {
    if n == 0 then []
    else Replies(b, n - 1, p, net)
         + if OnConnection(b[n - 1], p) then Select.Answer(DataFd(b[n - 1].data), net.recv(n - 1), p.offer) else []
  }

  /** One of the first `n` events brought a request on a connection of the record, for a port. */
  ghost predicate Requested(b: seq<Event>, n: nat, conns: seq<int>, comfd: int, port: int, net: Net)
    requires n <= |b|
  {
    exists k :: 0 <= k < n && b[k].events != 0 && DataFd(b[k].data) != comfd && DataFd(b[k].data) in conns
                && net.recv(k).Message? && port != -1
  }

  lemma {:induction false} AnsweredIff(b: seq<Event>, n: nat, p: Peer, net: Net)
    requires n <= |b|
    ensures Answered(b, n, p, net) <==> Requested(b, n, p.conns, p.offer.comfd, p.offer.port, net)
  {
    if n > 0 { AnsweredIff(b, n - 1, p, net); }
  }

  /** What is sent, in plain terms: on a connection whose event brings a request, the socket that the
      process serves and then its listener, each with the port number; -1 for it when the request
      could not be read; and nothing on any other connection. */
  ghost predicate Spoken(b: seq<Event>, n: nat, conns: seq<int>, net: Net, shadowfd: int, comfd: int, port: int, sent: seq<Select.Sent>)
    requires n <= |b|
  {
    && (forall k {:trigger b[k]} :: 0 <= k < n ==>
          var d := DataFd(b[k].data);
          b[k].events != 0 && d != comfd && d in conns ==>
            Select.On(sent, d) ==
              if net.recv(k).Message? then [Select.Sent(d, shadowfd, port), Select.Sent(d, comfd, port)]
              else if net.recv(k).Failed? then [Select.Sent(d, shadowfd, -1), Select.Sent(d, comfd, -1)]
              else [])
    && forall d :: !Busy(b, n, conns, comfd, d) ==> Select.On(sent, d) == []
  }

  ghost predicate Busy(b: seq<Event>, n: nat, conns: seq<int>, comfd: int, d: int)
    requires n <= |b|
  {
    d != comfd && d in conns && exists k :: 0 <= k < n && b[k].events != 0 && DataFd(b[k].data) == d
  }

  lemma {:induction false} NothingOnOthers(b: seq<Event>, n: nat, p: Peer, net: Net, d: int)
    requires n <= |b| && !Busy(b, n, p.conns, p.offer.comfd, d)
    ensures Select.On(Replies(b, n, p, net), d) == []
  {
    if n > 0 {
      NothingOnOthers(b, n - 1, p, net, d);
      OneMoreReply(b, n - 1, p, net, d);
      assert OnConnection(b[n - 1], p) ==> DataFd(b[n - 1].data) != d;
    }
  }

  lemma OneMoreReply(b: seq<Event>, n: nat, p: Peer, net: Net, d: int)
    requires n < |b|
    ensures Select.On(Replies(b, n + 1, p, net), d) == Select.On(Replies(b, n, p, net), d)
         + if OnConnection(b[n], p) && DataFd(b[n].data) == d then Select.On(Select.Answer(d, net.recv(n), p.offer), d) else []
  {
    var more := if OnConnection(b[n], p) then Select.Answer(DataFd(b[n].data), net.recv(n), p.offer) else [];
    Select.OnConcat(Replies(b, n, p, net), more, d);
    if OnConnection(b[n], p) { Select.OnAnswer(DataFd(b[n].data), net.recv(n), p.offer, d); }
  }

  lemma {:induction false} SaidAt(b: seq<Event>, n: nat, p: Peer, net: Net, k: nat)
    requires k < n <= |b| && Sole(b, p) && OnConnection(b[k], p)
    ensures var d := DataFd(b[k].data); Select.On(Replies(b, n, p, net), d) == Select.On(Select.Answer(d, net.recv(k), p.offer), d)
  {
    var d := DataFd(b[k].data);
    OneMoreReply(b, n - 1, p, net, d);
    if k < n - 1 {
      SaidAt(b, n - 1, p, net, k);
    } else {
      NothingOnOthers(b, k, p, net, d);
    }
  }

  lemma RepliesTell(b: seq<Event>, n: nat, p: Peer, net: Net)
    requires n <= |b| && Sole(b, p)
    ensures Spoken(b, n, p.conns, net, p.offer.shadowfd, p.offer.comfd, p.offer.port, Replies(b, n, p, net))
  {
    hide Replies, Sole;
    forall k | 0 <= k < n && OnConnection(b[k], p)
      ensures Select.On(Replies(b, n, p, net), DataFd(b[k].data))
              == Select.On(Select.Answer(DataFd(b[k].data), net.recv(k), p.offer), DataFd(b[k].data))
    {
      SaidAt(b, n, p, net, k);
    }
    forall k | 0 <= k < n
      ensures var d := DataFd(b[k].data);
              Select.On(Select.Answer(d, net.recv(k), p.offer), d) ==
                if net.recv(k).Message? then [Select.Sent(d, p.offer.shadowfd, p.offer.port), Select.Sent(d, p.offer.comfd, p.offer.port)]
                else if net.recv(k).Failed? then [Select.Sent(d, p.offer.shadowfd, -1), Select.Sent(d, p.offer.comfd, -1)]
                else []
    {
      Select.OnAnswer(DataFd(b[k].data), net.recv(k), p.offer, DataFd(b[k].data));
    }
    forall d | !Busy(b, n, p.conns, p.offer.comfd, d) ensures Select.On(Replies(b, n, p, net), d) == [] { NothingOnOthers(b, n, p, net, d); }
  }

  /** The list without the closed ones, in order. */
  function Kept(cs: seq<int>, gone: set<int>): seq<int> {
    if cs == [] then [] else (if cs[0] in gone then [] else [cs[0]]) + Kept(cs[1..], gone)
  }

  function ConnsAfter(b: seq<Event>, n: nat, p: Peer, net: Net): seq<int>
    requires n <= |b|
  {
    Kept(p.conns, Gone(b, n, p, net)) + Accepted(b, n, p, net)
  }

  /** Where the pass comes to after `n` events, in terms of the events and the list that the record
      began with. */
  function Expect(b: seq<Event>, n: nat, p: Peer, m: Interest, net: Net): Walk
    requires n <= |b|
  {
    Walk(Marks(b, Gone(b, n, p, net)), ConnsAfter(b, n, p, net), m - Gone(b, n, p, net), Answered(b, n, p, net), Replies(b, n, p, net))
  }

  ghost predicate Tidy(p: Peer) { Distinct(p.conns) && -1 !in p.conns }

  /** A connection is reported once, and no other event has data that reads as its number. */
  ghost predicate Sole(b: seq<Event>, p: Peer) {
    forall j, k :: 0 <= j < k < |b| && DataFd(b[j].data) in p.conns ==> DataFd(b[j].data) != DataFd(b[k].data)
  }

  /** What the kernel hands out at event `j` is no number that is still listed or reported. */
  ghost predicate NewAt(b: seq<Event>, j: nat, p: Peer, net: Net)
    requires j < |b|
  {
    OnListener(b[j], p) && net.accepted(j) != -1 ==>
      && net.accepted(j) !in ConnsAfter(b, j, p, net)
      && forall k {:trigger b[k]} :: 0 <= k < |b| ==> DataFd(Mark(b[k], Gone(b, j, p, net)).data) != net.accepted(j)
  }

  ghost predicate New(b: seq<Event>, n: nat, p: Peer, net: Net)
    requires n <= |b|
  {
    n == 0 || (New(b, n - 1, p, net) && NewAt(b, n - 1, p, net))
  }

  lemma {:induction false} GoneAre(b: seq<Event>, n: nat, p: Peer, net: Net, d: int)
    requires n <= |b| && d in Gone(b, n, p, net)
    ensures d in p.conns && d != p.offer.comfd
    ensures exists k :: 0 <= k < n && DataFd(b[k].data) == d
  {
    if d in Gone(b, n - 1, p, net) {
      GoneAre(b, n - 1, p, net, d);
    } else {
      assert DataFd(b[n - 1].data) == d;
    }
  }

  lemma {:induction false} KeptAre(cs: seq<int>, gone: set<int>, d: int)
    ensures d in Kept(cs, gone) <==> d in cs && d !in gone
  {
    if cs != [] {
      KeptAre(cs[1..], gone, d);
      assert cs == [cs[0]] + cs[1..];
    }
  }

  lemma {:induction false} KeptIsDistinct(cs: seq<int>, gone: set<int>)
    requires Distinct(cs)
    ensures Distinct(Kept(cs, gone))
  {
    if cs != [] {
      KeptIsDistinct(cs[1..], gone);
      KeptAre(cs[1..], gone, cs[0]);
      assert forall k :: 0 <= k < |Kept(cs[1..], gone)| ==> Kept(cs[1..], gone)[k] in Kept(cs[1..], gone);
    }
  }

  lemma RemoveFirstStep(c: int, s: seq<int>, d: int)
    ensures RemoveFirst([c] + s, d) == if c == d then s else [c] + RemoveFirst(s, d)
  {
    var t := [c] + s;
    assert t[1..] == s;
    var k := FirstIndex(s, d);
    if c != d && k < |s| {
      assert Without(t, k + 1) == [c] + Without(s, k);
    }
  }

  lemma {:induction false} KeptWithout(cs: seq<int>, gone: set<int>, d: int)
    requires d !in cs
    ensures Kept(cs, gone + {d}) == Kept(cs, gone)
  {
    if cs != [] {
      KeptWithout(cs[1..], gone, d);
    }
  }

  lemma KeptStep(cs: seq<int>, gone: set<int>, more: seq<int>)
    requires cs != []
    ensures Kept(cs, gone) + more == if cs[0] in gone then Kept(cs[1..], gone) + more else [cs[0]] + (Kept(cs[1..], gone) + more)
  {
  }

  lemma TailDistinct(cs: seq<int>)
    requires Distinct(cs) && cs != []
    ensures Distinct(cs[1..]) && cs[0] !in cs[1..]
  {
  }

  /** Removing a kept connection is keeping all but it. */
  lemma {:induction false} RemoveKept(cs: seq<int>, gone: set<int>, d: int, more: seq<int>)
    requires Distinct(cs) && d in cs && d !in gone
    ensures RemoveFirst(Kept(cs, gone) + more, d) == Kept(cs, gone + {d}) + more
  {
    hide Distinct, RemoveFirst, Kept;
    var rest := Kept(cs[1..], gone) + more;
    TailDistinct(cs);
    KeptStep(cs, gone, more);
    KeptStep(cs, gone + {d}, more);
    RemoveFirstStep(cs[0], rest, d);
    if cs[0] == d {
      KeptWithout(cs[1..], gone, d);
    } else {
      assert d in cs[1..];
      RemoveKept(cs[1..], gone, d, more);
    }
  }

  lemma DataOfMark(e: Event, closed: set<int>)
    ensures DataFd(Mark(e, closed).data) == if DataFd(e.data) in closed then -1 else DataFd(e.data)
  {
    DataFdOfWithFd(e.data, -1);
  }

  /** What one more event does to the record's list. */
  lemma ConnsStep(b: seq<Event>, n: nat, p: Peer, net: Net)
    requires n < |b| && Distinct(p.conns)
    ensures var e, cs := b[n], ConnsAfter(b, n, p, net);
            ConnsAfter(b, n + 1, p, net) ==
              if OnListener(e, p) && net.accepted(n) != -1 then cs + [net.accepted(n)]
              else if OnConnection(e, p) && net.recv(n).Closed? && DataFd(e.data) !in Gone(b, n, p, net) then RemoveFirst(cs, DataFd(e.data))
              else cs
  {
    hide Distinct, RemoveFirst, Kept;
    var e, g := b[n], Gone(b, n, p, net);
    var d := DataFd(e.data);
    if OnConnection(e, p) && net.recv(n).Closed? {
      if d in g {
        assert g + {d} == g;
      } else {
        RemoveKept(p.conns, g, d, Accepted(b, n, p, net));
      }
    } else {
      assert g + {} == g;
    }
  }

  /** No connection is listed twice. */
  lemma {:induction false} ConnsAreDistinct(b: seq<Event>, n: nat, p: Peer, net: Net)
    requires n <= |b| && Tidy(p) && New(b, n, p, net)
    ensures Distinct(ConnsAfter(b, n, p, net)) && -1 !in ConnsAfter(b, n, p, net)
  {
    hide Mark, Kept, RemoveFirst, DataFd;
    if n == 0 {
      KeptAll(p.conns);
    } else {
      ConnsAreDistinct(b, n - 1, p, net);
      ConnsStep(b, n - 1, p, net);
      var cs, d := ConnsAfter(b, n - 1, p, net), DataFd(b[n - 1].data);
      RemoveFirstForgets(cs, d);
      assert NewAt(b, n - 1, p, net);
      hide ConnsAfter, Gone, New;
    }
  }

  /** No event has data that reads as the number of an accepted connection. */
  lemma {:induction false} AcceptedUnreported(b: seq<Event>, n: nat, p: Peer, net: Net, a: int, k: nat)
    requires n <= |b| && New(b, n, p, net) && a in Accepted(b, n, p, net) && k < |b|
    ensures a != -1 && DataFd(Mark(b[k], Gone(b, n, p, net)).data) != a
  {
    hide Mark, DataFd, ConnsAfter;
    DataOfMark(b[k], Gone(b, n, p, net));
    DataOfMark(b[k], Gone(b, n - 1, p, net));
    if a in Accepted(b, n - 1, p, net) {
      AcceptedUnreported(b, n - 1, p, net, a, k);
    } else {
      assert NewAt(b, n - 1, p, net) && a == net.accepted(n - 1);
    }
  }

  lemma {:induction false} KeptAll(cs: seq<int>)
    ensures Kept(cs, {}) == cs
  {
    if cs != [] {
      KeptAll(cs[1..]);
    }
  }

  /** The event that the pass comes to is as it was reported, if it is on a connection of the
      record. */
  lemma NotYetMarked(b: seq<Event>, n: nat, p: Peer, net: Net)
    requires n < |b| && Sole(b, p)
    ensures DataFd(b[n].data) !in Gone(b, n, p, net) && Mark(b[n], Gone(b, n, p, net)) == b[n]
  {
    var d := DataFd(b[n].data);
    if d in Gone(b, n, p, net) {
      GoneAre(b, n, p, net, d);
    }
  }

  lemma MarkOneMore(b: seq<Event>, n: nat, g: set<int>, p: Peer)
    requires n < |b| && Sole(b, p) && DataFd(b[n].data) in p.conns && DataFd(b[n].data) !in g
    ensures Marks(b, g + {DataFd(b[n].data)}) == Marks(b, g)[n := Event(b[n].events, WithFd(b[n].data, -1))]
  {
    hide DataFd, WithFd;
    var d := DataFd(b[n].data);
    forall k | 0 <= k < |b| ensures Mark(b[k], g + {d}) == if k == n then Event(b[n].events, WithFd(b[n].data, -1)) else Mark(b[k], g) {
    }
  }

  /** The event that the pass comes to is on a listed connection exactly if it was when the record began. */
  lemma ListedStill(b: seq<Event>, n: nat, p: Peer, net: Net)
    requires n < |b| && Sole(b, p) && New(b, n, p, net)
    ensures var e := b[n];
            e.events != 0 && DataFd(e.data) != p.offer.comfd ==> (DataFd(e.data) in ConnsAfter(b, n, p, net) <==> OnConnection(e, p))
  {
    hide Distinct, RemoveFirst, Kept, DataFd, WithFd, Sole, New, Mark;
    var d := DataFd(b[n].data);
    NotYetMarked(b, n, p, net);
    if d in Accepted(b, n, p, net) {
      AcceptedUnreported(b, n, p, net, d, n);
    }
    KeptAre(p.conns, Gone(b, n, p, net), d);
  }

  /** What one more event does to the events and the interest list. */
  lemma GoneStep(b: seq<Event>, n: nat, p: Peer, m: Interest, net: Net)
    requires n < |b| && Sole(b, p)
    ensures var g, d := Gone(b, n, p, net), DataFd(b[n].data);
            var closes := OnConnection(b[n], p) && net.recv(n).Closed?;
            && Marks(b, g)[n] == b[n]
            && Marks(b, Gone(b, n + 1, p, net)) ==
                 (if closes then Marks(b, g)[n := Event(b[n].events, WithFd(b[n].data, -1))] else Marks(b, g))
            && m - Gone(b, n + 1, p, net) == (if closes then Del(m - g, d) else m - g)
  {
    hide DataFd, WithFd, Sole, Mark;
    var g, d := Gone(b, n, p, net), DataFd(b[n].data);
    NotYetMarked(b, n, p, net);
    if OnConnection(b[n], p) && net.recv(n).Closed? {
      MarkOneMore(b, n, g, p);
      assert Del(m - g, d) == m - (g + {d});
    } else {
      assert g + {} == g;
    }
  }

  /** One event leads from what is expected to what is expected next. */
  lemma ExpectStep(b: seq<Event>, n: nat, p: Peer, m: Interest, net: Net)
    requires n < |b| && Tidy(p) && Sole(b, p) && New(b, n, p, net)
    ensures Visit(Expect(b, n, p, m, net), n, p.offer, net.accepted(n), net.recv(n)) == Expect(b, n + 1, p, m, net)
  {
    hide Distinct, RemoveFirst, DataFd, WithFd, Sole, New, Marks, Gone, ConnsAfter;
    NotYetMarked(b, n, p, net);
    ListedStill(b, n, p, net);
    ConnsStep(b, n, p, net);
    GoneStep(b, n, p, m, net);
    assert Replies(b, n, p, net) + [] == Replies(b, n, p, net);
  }

  // ---------------------------------------------------------------- all records

  /** The connections that the first `n` records close, each on the events as its predecessors
      left them. */
  function ClosedBy(ps: seq<Peer>, n: nat, s: seq<Event>, nets: nat -> Net): set<int>
    requires n <= |ps|
  {
    if n == 0 then {}
    else
      var c := ClosedBy(ps, n - 1, s, nets);
      c + Gone(Marks(s, c), |s|, ps[n - 1], nets(n - 1))
  }

  /** The events that record `i` finds. */
  function Finds(ps: seq<Peer>, i: nat, s: seq<Event>, nets: nat -> Net): (b: seq<Event>)
    requires i <= |ps|
    ensures |b| == |s|
  {
    Marks(s, ClosedBy(ps, i, s, nets))
  }

  function ConnsOf(ps: seq<Peer>, i: nat, s: seq<Event>, nets: nat -> Net): seq<int>
    requires i < |ps|
  {
    ConnsAfter(Finds(ps, i, s, nets), |s|, ps[i], nets(i))
  }

  function RepliesBy(ps: seq<Peer>, n: nat, s: seq<Event>, nets: nat -> Net): seq<Select.Sent>
    requires n <= |ps|
  {
    if n == 0 then []
    else RepliesBy(ps, n - 1, s, nets) + Replies(Finds(ps, n - 1, s, nets), |s|, ps[n - 1], nets(n - 1))
  }

  ghost predicate NewFor(ps: seq<Peer>, n: nat, s: seq<Event>, nets: nat -> Net)
    requires n <= |ps|
  {
    n == 0 || (NewFor(ps, n - 1, s, nets) && New(Finds(ps, n - 1, s, nets), |s|, ps[n - 1], nets(n - 1)))
  }

  ghost predicate Ready(ps: seq<Peer>, s: seq<Event>) {
    forall i {:trigger ps[i]} :: 0 <= i < |ps| ==> Tidy(ps[i]) && Sole(s, ps[i])
  }

  lemma {:induction false} ClosedAreListed(ps: seq<Peer>, n: nat, s: seq<Event>, nets: nat -> Net, d: int)
    requires n <= |ps| && d in ClosedBy(ps, n, s, nets)
    ensures exists i :: 0 <= i < n && d in ps[i].conns
  {
    var c := ClosedBy(ps, n - 1, s, nets);
    if d in c {
      ClosedAreListed(ps, n - 1, s, nets, d);
    } else {
      GoneAre(Marks(s, c), |s|, ps[n - 1], nets(n - 1), d);
    }
  }

  lemma MarksTwice(s: seq<Event>, c: set<int>, g: set<int>)
    requires -1 !in g
    ensures Marks(Marks(s, c), g) == Marks(s, c + g)
  {
    hide DataFd, WithFd;
    forall k | 0 <= k < |s| ensures Mark(Mark(s[k], c), g) == Mark(s[k], c + g) {
      DataOfMark(s[k], c);
    }
  }

  lemma SoleStays(s: seq<Event>, c: set<int>, p: Peer)
    requires Tidy(p) && Sole(s, p)
    ensures Sole(Marks(s, c), p)
  {
    hide DataFd, WithFd, Mark;
    forall k | 0 <= k < |s| ensures DataFd(Marks(s, c)[k].data) == if DataFd(s[k].data) in c then -1 else DataFd(s[k].data) {
      DataOfMark(s[k], c);
    }
  }

  /** One record leads from what its predecessors closed to what is closed next. */
  lemma RecordStep(ps: seq<Peer>, i: nat, s: seq<Event>, nets: nat -> Net)
    requires i < |ps| && Ready(ps, s) && NewFor(ps, i + 1, s, nets)
    ensures var b := Finds(ps, i, s, nets);
            && Tidy(ps[i]) && Sole(b, ps[i]) && New(b, |s|, ps[i], nets(i))
            && Finds(ps, i + 1, s, nets) == Marks(b, Gone(b, |s|, ps[i], nets(i)))
  {
    hide Marks, Sole, New;
    var c := ClosedBy(ps, i, s, nets);
    var g := Gone(Marks(s, c), |s|, ps[i], nets(i));
    if -1 in g {
      GoneAre(Marks(s, c), |s|, ps[i], nets(i), -1);
    }
    MarksTwice(s, c, g);
    SoleStays(s, c, ps[i]);
  }

  lemma {:induction false} NewForPrefix(ps: seq<Peer>, n: nat, k: nat, s: seq<Event>, nets: nat -> Net)
    requires k <= n <= |ps| && NewFor(ps, n, s, nets)
    ensures NewFor(ps, k, s, nets)
  {
    if k < n {
      NewForPrefix(ps, n - 1, k, s, nets);
    }
  }

  // ---------------------------------------------------------------- in place

  ghost function PeerOf(r: Record): Peer
    reads r, r.comfds
  {
    Peer(r.monitoring, Select.OfferOf(r), r.comfds.Items())
  }

  /** Memory is where the walk is; `so` is how port and record stood when it began. */
  ghost predicate Reached(instance: Instance, r: Record, events: array<Event>, n: nat, w: Walk, so: (Status, Flags))
    requires n <= events.Length
    reads instance, r, r.shared, r.comfds, events
  {
    && r.comfds.Valid() && r.comfds.Items() == w.conns && instance.interest == w.interest && events[..n] == w.events
    && (r.shared.Status(), r.Flags()) == if w.answered then Respond(so.0, so.1) else so
  }

  method VisitEvent(instance: Instance, r: Record, events: array<Event>, n: nat, j: nat, accepted: int, recv: SelectSpec.Recv,
                    ghost w: Walk, ghost so: (Status, Flags))
    returns (sent: seq<Select.Sent>, ghost w': Walk)
    requires j < n <= events.Length && Reached(instance, r, events, n, w, so) && Distinct(w.conns) && -1 !in w.conns
    modifies instance, events, r`transfer, r.shared`transfer, r.comfds
    ensures w' == Visit(w, j, Select.OfferOf(r), accepted, recv) && Reached(instance, r, events, n, w', so)
    ensures w'.sent == w.sent + sent && events[n..] == old(events[n..])
  {
    hide List.Valid, List.Items, Distinct, DataFd, WithFd, RemoveFirst;
    w' := Visit(w, j, Select.OfferOf(r), accepted, recv);
    var e;
    e, sent := HandleEvent(instance, r, events[j], accepted, recv);
    events[j] := e;
    assert events[..n] == w.events[j := e];
  }

  /** `dsu_handle_conn_epoll`. */
  method HandleConn(instance: Instance, r: Record, events: array<Event>, n: nat, net: Net, ghost p: Peer)
    returns (sent: seq<Select.Sent>)
    requires n <= events.Length && r.comfds.Valid() && p == PeerOf(r)
    requires Tidy(p) && Sole(events[..n], p) && New(events[..n], n, p, net)
    modifies instance, events, r`transfer, r.shared`transfer, r.comfds
    ensures var b := old(events[..n]);
            && r.comfds.Valid() && r.comfds.Items() == ConnsAfter(b, n, p, net)
            && events[..n] == Marks(b, Gone(b, n, p, net)) && events[n..] == old(events[n..])
            && instance.interest == old(instance.interest) - Gone(b, n, p, net)
            && sent == Replies(b, n, p, net) && Spoken(b, n, old(r.comfds.Items()), net, r.shadowfd, r.comfd, r.port, sent)
            && (r.shared.Status(), r.Flags()) ==
               (if Answered(b, n, p, net) then Respond(old(r.shared.Status()), old(r.Flags()))
                else (old(r.shared.Status()), old(r.Flags())))
            && r.transfer == (old(r.transfer) || Requested(b, n, old(r.comfds.Items()), r.comfd, r.port, net))
            && r.shared.transfer == old(r.shared.transfer) + (if !old(r.transfer) && Requested(b, n, old(r.comfds.Items()), r.comfd, r.port, net) then 1 else 0)
  {
    hide List.Valid, List.Items, Distinct, Visit, Spoken, Requested;
    RepliesTell(events[..n], n, p, net);
    AnsweredIff(events[..n], n, p, net);
    ghost var b, m, so := events[..n], instance.interest, (r.shared.Status(), r.Flags());
    ghost var w := Expect(b, 0, p, m, net);
    ExpectStart(b, p, m, net);
    sent := [];
    for j := 0 to n
      invariant w == Expect(b, j, p, m, net) && Reached(instance, r, events, n, w, so) && sent == w.sent
      invariant Select.OfferOf(r) == p.offer && events[n..] == old(events[n..])
    {
      NewPrefix(b, n, j, p, net);
      ConnsAreDistinct(b, j, p, net);
      ExpectStep(b, j, p, m, net);
      var more;
      more, w := VisitEvent(instance, r, events, n, j, net.accepted(j), net.recv(j), w, so);
      sent := sent + more;
    }
  }

  lemma ExpectStart(b: seq<Event>, p: Peer, m: Interest, net: Net)
    ensures Expect(b, 0, p, m, net) == Walk(b, p.conns, m, false, [])
  {
    KeptAll(p.conns);
    assert m - {} == m;
    assert forall k :: 0 <= k < |b| ==> Mark(b[k], {}) == b[k];
  }

  lemma {:induction false} NewPrefix(b: seq<Event>, n: nat, k: nat, p: Peer, net: Net)
    requires k <= n <= |b| && New(b, n, p, net)
    ensures New(b, k, p, net)
  {
    if k < n {
      NewPrefix(b, n - 1, k, p, net);
    }
  }

  /** The records hold these lists, and they and their ports stand like this. */
  ghost predicate Stand(rs: seq<Record>, items: seq<seq<int>>, sos: seq<(Status, Flags)>)
    reads rs, set r | r in rs :: r.comfds, set r | r in rs :: r.shared
  {
    |items| == |sos| == |rs| && forall i {:trigger rs[i]} :: 0 <= i < |rs| ==>
      rs[i].comfds.Valid() && rs[i].comfds.Items() == items[i] && Core.Standing(rs[i]) == sos[i]
  }

  /** What a record brings besides its connections does not change in the pass. */
  ghost predicate Offers(rs: seq<Record>, ps: seq<Peer>)
    reads rs
  {
    |ps| == |rs| && forall i {:trigger rs[i]} :: 0 <= i < |rs| ==>
      && ps[i].monitoring == rs[i].monitoring
      && ps[i].offer.shadowfd == rs[i].shadowfd && ps[i].offer.comfd == rs[i].comfd && ps[i].offer.port == rs[i].port
  }

  /** One record of the pass; the others and their ports stay as they are. */
  method HandleConnAt(instance: Instance, rs: seq<Record>, i: nat, events: array<Event>, n: nat, net: Net, ghost ps: seq<Peer>,
                      ghost items: seq<seq<int>>, ghost sos: seq<(Status, Flags)>, ghost ports: set<Port>, ghost lists: set<List<int>>)
    returns (sent: seq<Select.Sent>)
    requires i < |rs| && SelectCall.Different(rs) && SelectCall.Within(rs, ports, lists) && Stand(rs, items, sos)
    requires Offers(rs, ps) && items[i] == ps[i].conns
    requires n <= events.Length && Tidy(ps[i]) && Sole(events[..n], ps[i]) && New(events[..n], n, ps[i], net)
    modifies instance, events, rs`transfer, ports`transfer, lists
    ensures Offers(rs, ps)
    ensures var b, p := old(events[..n]), ps[i];
            && Stand(rs, items[i := ConnsAfter(b, n, p, net)], sos[i := Core.Count(sos[i], Answered(b, n, p, net))])
            && events[..n] == Marks(b, Gone(b, n, p, net)) && events[n..] == old(events[n..])
            && instance.interest == old(instance.interest) - Gone(b, n, p, net)
            && sent == Replies(b, n, p, net)
  {
    hide List.Valid, List.Items, Respond, Gone, Marks, ConnsAfter, Answered, Replies, New, Sole, Tidy;
    assert ps[i] == PeerOf(rs[i]);
    sent := HandleConn(instance, rs[i], events, n, net, ps[i]);
  }

  /** The lists when the first `i` records are handled, and how records and ports stand then. */
  ghost function ListsAt(ps: seq<Peer>, i: nat, s: seq<Event>, nets: nat -> Net): seq<seq<int>> {
    seq(|ps|, k requires 0 <= k < |ps| => if k < i then ConnsOf(ps, k, s, nets) else ps[k].conns)
  }

  ghost function StandingsAt(ps: seq<Peer>, i: nat, s: seq<Event>, nets: nat -> Net, sos: seq<(Status, Flags)>): seq<(Status, Flags)>
    requires |sos| == |ps|
  {
    seq(|ps|, k requires 0 <= k < |ps| =>
      if k < i then Core.Count(sos[k], Answered(Finds(ps, k, s, nets), |s|, ps[k], nets(k))) else sos[k])
  }

  lemma StageStep(ps: seq<Peer>, i: nat, s: seq<Event>, nets: nat -> Net, sos: seq<(Status, Flags)>)
    requires i < |ps| == |sos|
    ensures var b := Finds(ps, i, s, nets);
            && ListsAt(ps, i + 1, s, nets) == ListsAt(ps, i, s, nets)[i := ConnsAfter(b, |s|, ps[i], nets(i))]
            && StandingsAt(ps, i, s, nets, sos)[i] == sos[i]
            && ListsAt(ps, i, s, nets)[i] == ps[i].conns
            && StandingsAt(ps, i + 1, s, nets, sos)
               == StandingsAt(ps, i, s, nets, sos)[i := Core.Count(sos[i], Answered(b, |s|, ps[i], nets(i)))]
            && RepliesBy(ps, i + 1, s, nets) == RepliesBy(ps, i, s, nets) + Replies(b, |s|, ps[i], nets(i))
            && ClosedBy(ps, i + 1, s, nets) == ClosedBy(ps, i, s, nets) + Gone(b, |s|, ps[i], nets(i))
  {
    hide Marks, ConnsAfter, Answered, Replies, Gone, Core.Count;
    assert ConnsOf(ps, i, s, nets) == ConnsAfter(Finds(ps, i, s, nets), |s|, ps[i], nets(i));
  }

  /** `dsu_handle_conn_epoll` over the bind list. */
  method HandleConns(instance: Instance, rs: seq<Record>, events: array<Event>, n: nat, nets: nat -> Net, ghost ps: seq<Peer>,
                     ghost sos: seq<(Status, Flags)>, ghost ports: set<Port>, ghost lists: set<List<int>>)
    returns (sent: seq<Select.Sent>)
    requires n <= events.Length && SelectCall.Different(rs) && SelectCall.Within(rs, ports, lists)
    requires |ps| == |rs| == |sos| && Offers(rs, ps) && Stand(rs, ListsAt(ps, 0, events[..n], nets), sos)
    requires Ready(ps, events[..n]) && NewFor(ps, |ps|, events[..n], nets)
    modifies instance, events, rs`transfer, ports`transfer, lists
    ensures var s := old(events[..n]);
            && events[..n] == Finds(ps, |ps|, s, nets) && events[n..] == old(events[n..])
            && instance.interest == old(instance.interest) - ClosedBy(ps, |ps|, s, nets)
            && sent == RepliesBy(ps, |ps|, s, nets)
            && Stand(rs, ListsAt(ps, |ps|, s, nets), StandingsAt(ps, |ps|, s, nets, sos))
    ensures Offers(rs, ps)
  {
    hide List.Valid, List.Items, Ready, NewFor, Gone, Marks, ConnsAfter, Answered, Replies, Core.Standing, Core.Count;
    hide SelectCall.Different, SelectCall.Within, ClosedBy, RepliesBy, ListsAt, StandingsAt, Finds, Stand, Offers;
    ghost var s, m := events[..n], instance.interest;
    StageStart(ps, s, nets, sos);
    assert m - {} == m;
    sent := [];
    for i := 0 to |rs|
      invariant events[..n] == Finds(ps, i, s, nets) && events[n..] == old(events[n..])
      invariant instance.interest == m - ClosedBy(ps, i, s, nets) && sent == RepliesBy(ps, i, s, nets)
      invariant Offers(rs, ps)
      invariant Stand(rs, ListsAt(ps, i, s, nets), StandingsAt(ps, i, s, nets, sos))
    {
      NewForPrefix(ps, |ps|, i + 1, s, nets);
      RecordStep(ps, i, s, nets);
      StageStep(ps, i, s, nets, sos);
      var more := HandleConnAt(instance, rs, i, events, n, nets(i), ps, ListsAt(ps, i, s, nets),
                               StandingsAt(ps, i, s, nets, sos), ports, lists);
      sent := sent + more;
    }
  }

  lemma StageStart(ps: seq<Peer>, s: seq<Event>, nets: nat -> Net, sos: seq<(Status, Flags)>)
    requires |sos| == |ps|
    ensures Finds(ps, 0, s, nets) == s && StandingsAt(ps, 0, s, nets, sos) == sos
    ensures ClosedBy(ps, 0, s, nets) == {} && RepliesBy(ps, 0, s, nets) == []
  {
    assert forall k :: 0 <= k < |s| ==> Mark(s[k], {}) == s[k];
  }
}
