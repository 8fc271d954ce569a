/** Both ends of a handover: what a responder sends on a connection is what the requester's `bind`
    makes its record from. A descriptor that is passed on keeps its number here; it stands for the
    open file that both processes then share. */
module Handover {
  import opened State
  import TablesSpec
  import opened Sockets
  import Select
  import SelectSpec

  /** `dsu_inherit_fd` after its request: the first message carries the shadow descriptor, the second
      the listener; the verdict is the number in the last message that arrived. Whatever a responder
      that hung up did not send stays as it was: the socket itself, and 0. */
  function Received(messages: seq<Select.Sent>, d: int): Peer {
    if messages == [] then Answering(d, 0, 0)
    else if |messages| == 1 then Answering(messages[0].fd, 0, messages[0].port)
    else Answering(messages[0].fd, messages[1].fd, messages[1].port)
  }

  /** `bind` of a process whose request went over connection `c`. If the responder answered as it
      does - with its own shadow descriptor and its listener, and its port number - the new record
      has that shadow descriptor and that listener, and it monitors them in the version that
      follows, or in the current one for a sibling. If the request was refused, the branch of the
      first bind is taken with these descriptors. */
  method BindFrom(sockets: List<Record>, binds: List<Record>, d: int, port: int, made: int, sent: seq<Select.Sent>, c: int,
                  memory: Port, pgid: int, bound: int, ghost unbound: seq<Record>, ghost t: TablesSpec.Tables,
                  ghost shadowfd: int, ghost comfd: int, ghost verdict: int)
    returns (rc: int)
    requires Holds(sockets, binds, t) && unbound == sockets.Items() && d in t.sockets
    requires forall i {:trigger unbound[i]} :: 0 <= i < |unbound| ==> Unbound(unbound[i]) && Apart(unbound[i], binds.Items())
    requires Select.On(sent, c) == [Select.Sent(c, shadowfd, verdict), Select.Sent(c, comfd, verdict)]
    modifies sockets, binds, memory
    modifies unbound`port, unbound`shadowfd, unbound`comfd, unbound`monitoring, unbound`version, unbound`transfer
    ensures |binds.Items()| == |t.binds| + 1
    ensures var n := binds.Items()[|t.binds|];
            && fresh(n) && n.fd == d && n.port == port && n.shadowfd == shadowfd && n.comfd == comfd && n.monitoring
            && (verdict > 0 ==>
                  && rc == 0 && memory.Status() == old(memory.Status())
                  && n.version == memory.version + (if memory.pgid != pgid then 1 else 0))
            && (verdict <= 0 ==> rc == bound && memory.version == memory.transfer == 0 && memory.pgid == pgid && n.version == 0)
  {
    hide Holds, Unbound, Apart, TablesSpec.Bound;
    var peer := Received(Select.On(sent, c), d);
    rc := Sockets.Bind(sockets, binds, d, port, made, peer, memory, pgid, bound, unbound, t);
  }

  /** The requester's tables, which the responder's lists are no part of. */
  ghost predicate Aside(r: Record, unbound: seq<Record>, rs: seq<Record>) {
    && r !in unbound && r !in rs && r.comfds !in Inner(unbound) && r.comfds !in Inner(rs)
  }

  /** A request over connection `c`, from the responder's event call to the record that the requester's
      `bind` makes: it denotes what the responder itself uses, not what the requester opened. */
  method Handle(sel: Select.Selector, r: Record, readfds: Select.FdSet, net: SelectSpec.Net, c: int,
                sockets: List<Record>, binds: List<Record>, d: int, port: int, made: int, memory: Port, pgid: int, bound: int,
                ghost unbound: seq<Record>, ghost rs: seq<Record>, ghost t: TablesSpec.Tables)
    returns (rc: int)
    requires r.comfds.Valid() && Distinct(SelectSpec.Connections(SelectSpec.ViewOf(r), readfds.bits, net))
    requires c in r.comfds.Items() && c in readfds.bits && c != r.comfd && net.recv(c).Message? && r.port > 0
    requires Holds(sockets, binds, t) && unbound == sockets.Items() && rs == binds.Items() && d in t.sockets && Aside(r, unbound, rs)
    requires forall i {:trigger unbound[i]} :: 0 <= i < |unbound| ==> Unbound(unbound[i]) && Apart(unbound[i], rs)
    modifies sel`correction, readfds, r`transfer, r.shared`transfer, r.comfds, sockets, binds, memory
    modifies unbound`port, unbound`shadowfd, unbound`comfd, unbound`monitoring, unbound`version, unbound`transfer
    ensures |binds.Items()| == |t.binds| + 1 && rc == 0
    ensures var n := binds.Items()[|t.binds|];
            && n.fd == d && n.port == port && n.monitoring && n.shadowfd == r.shadowfd && n.comfd == r.comfd
            && n.version == memory.version + (if memory.pgid != pgid then 1 else 0)
  {
    hide Holds, Select.On, Aside, List.Valid, List.Items, SelectSpec.Connections;
    var sent := Respond(sel, r, readfds, net, c, sockets, binds, unbound, rs, t);
    hide Holds, Unbound, Apart;
    ghost var shadowfd, comfd, verdict := r.shadowfd, r.comfd, r.port;
    rc := BindFrom(sockets, binds, d, port, made, sent, c, memory, pgid, bound, unbound, t, shadowfd, comfd, verdict);
  }

  /** What the responder sends touches nothing of the requester. */
  method Respond(sel: Select.Selector, r: Record, readfds: Select.FdSet, net: SelectSpec.Net, c: int,
                 ghost sockets: List<Record>, ghost binds: List<Record>,
                 ghost unbound: seq<Record>, ghost rs: seq<Record>, ghost t: TablesSpec.Tables)
    returns (sent: seq<Select.Sent>)
    requires r.comfds.Valid() && Distinct(SelectSpec.Connections(SelectSpec.ViewOf(r), readfds.bits, net))
    requires c in r.comfds.Items() && c in readfds.bits && c != r.comfd && net.recv(c).Message?
    requires Holds(sockets, binds, t) && unbound == sockets.Items() && rs == binds.Items() && Aside(r, unbound, rs)
    requires forall i {:trigger unbound[i]} :: 0 <= i < |unbound| ==> Unbound(unbound[i]) && Apart(unbound[i], rs)
    modifies sel`correction, readfds, r`transfer, r.shared`transfer, r.comfds
    ensures Holds(sockets, binds, t) && unbound == sockets.Items() && rs == binds.Items()
    ensures forall i {:trigger unbound[i]} :: 0 <= i < |unbound| ==> Unbound(unbound[i]) && Apart(unbound[i], rs)
    ensures Select.On(sent, c) == [Select.Sent(c, r.shadowfd, r.port), Select.Sent(c, r.comfd, r.port)]
  {
    hide Distinct, SelectSpec.Connections, Select.On, Apart, Holds, Unbound, List.Items, List.Valid;
    sent := Reply(sel, r, readfds, net, c);
  }

  method Reply(sel: Select.Selector, r: Record, readfds: Select.FdSet, net: SelectSpec.Net, c: int) returns (sent: seq<Select.Sent>)
    requires r.comfds.Valid() && Distinct(SelectSpec.Connections(SelectSpec.ViewOf(r), readfds.bits, net))
    requires c in r.comfds.Items() && c in readfds.bits && c != r.comfd && net.recv(c).Message?
    modifies sel`correction, readfds, r`transfer, r.shared`transfer, r.comfds
    ensures Select.On(sent, c) == [Select.Sent(c, r.shadowfd, r.port), Select.Sent(c, r.comfd, r.port)]
  {
    hide Distinct, SelectSpec.Connections, Select.On;
    sent := sel.HandleConn(r, readfds, net);
  }
}
