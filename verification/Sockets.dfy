/** The wrappers around `socket`, `bind`, `accept` and `close`, in place on the shadow tables. */
module Sockets {
  import opened Steps
  import opened State
  import opened TablesSpec

  ghost function RowOf(r: Record): Row
    reads r, r.comfds, r.fds
  {
    Row(r.fd, r.shadowfd, r.comfd, r.monitoring, r.comfds.Items(), r.fds.Items())
  }

  ghost function Inner(rs: seq<Record>): set<List<int>> {
    (set r | r in rs :: r.comfds) + (set r | r in rs :: r.fds)
  }

  /** The records are different, and so are their lists. */
  ghost predicate Separate(rs: seq<Record>) {
    && (forall i, j :: 0 <= i < j < |rs| ==> rs[i] != rs[j] && rs[i].comfds != rs[j].comfds && rs[i].fds != rs[j].fds)
    && (forall i, j :: 0 <= i < |rs| && 0 <= j < |rs| ==> rs[i].comfds != rs[j].fds)
  }

  /** `rows` is what the bound records track. */
  ghost predicate Shows(rs: seq<Record>, rows: seq<Row>)
    reads rs, Inner(rs)
  {
    |rows| == |rs| && forall i {:trigger rs[i]} :: 0 <= i < |rs| ==>
      && rs[i].comfds.Valid() && rs[i].fds.Valid()
      && rows[i].fd == rs[i].fd && rows[i].shadowfd == rs[i].shadowfd && rows[i].comfd == rs[i].comfd
      && rows[i].monitoring == rs[i].monitoring && rows[i].comfds == rs[i].comfds.Items() && rows[i].fds == rs[i].fds.Items()
  }

  method AddClient(r: Record, session: int, ghost rs: seq<Record>, ghost rows: seq<Row>, ghost b: nat)
    requires b < |rs| && r == rs[b] && Separate(rs) && Shows(rs, rows)
    modifies r.fds
    ensures Shows(rs, rows[b := rows[b].(fds := rows[b].fds + [session])])
  {
    hide Linked, ItemsOf;
    r.fds.Add(session);
    forall i {:trigger rs[i]} | 0 <= i < |rs| && i != b ensures rs[i].fds != r.fds { }
  }

  /** The tables hold `t`. */
  ghost predicate Holds(sockets: List<Record>, binds: List<Record>, t: Tables)
    reads sockets, sockets.Items(), binds, binds.Items(), Inner(binds.Items())
  {
    && sockets.Valid() && binds.Valid() && sockets != binds
    && State.Fds(sockets.Items()) == t.sockets && Separate(binds.Items()) && Shows(binds.Items(), t.binds)
  }

  /** A socket as `socket` left it. */
  ghost predicate Unbound(r: Record)
    reads r, r.comfds, r.fds
  {
    && !r.monitoring && !r.locked && !r.transfer && r.fd == r.shadowfd
    && r.comfds.Valid() && r.fds.Valid() && r.comfds.Items() == r.fds.Items() == []
  }

  /** A record that shares nothing with the bound ones. */
  ghost predicate Apart(r: Record, rs: seq<Record>) {
    r !in rs && r.comfds != r.fds && r.comfds !in Inner(rs) && r.fds !in Inner(rs)
  }

  // ---------------------------------------------------------------- socket and accept

  /** `socket`; the library tracks positive descriptors only. */
  method Socket(sockets: List<Record>, binds: List<Record>, d: int, ghost t: Tables)
    requires Holds(sockets, binds, t)
    modifies sockets
    ensures binds.Items() == old(binds.Items())
    ensures Holds(sockets, binds, if d > 0 then Opened(t, d) else t)
    ensures d <= 0 ==> sockets.Items() == old(sockets.Items())
    ensures d > 0 ==>
      && |sockets.Items()| == |t.sockets| + 1 && sockets.Items()[..|t.sockets|] == old(sockets.Items())
      && var r := sockets.Items()[|t.sockets|];
         fresh(r) && r.fd == d && Unbound(r) && Apart(r, binds.Items())
  {
    hide Linked, ItemsOf, Distinct, Separate;
    if d > 0 {
      AddUnbound(sockets, d);
    }
  }

  method AddUnbound(sockets: List<Record>, d: int)
    requires sockets.Valid()
    modifies sockets
    ensures sockets.Valid() && |sockets.Items()| == |old(sockets.Items())| + 1
    ensures var r := sockets.Items()[|old(sockets.Items())|];
            && sockets.Items() == old(sockets.Items()) + [r]
            && fresh(r) && fresh(r.comfds) && fresh(r.fds) && r.comfds != r.fds && r.fd == d && Unbound(r)
  {
    var r := new Record(d);
    var copy := AddRecord(sockets, r, r.shared);
  }

  /** `accept` and `accept4`: a connection on a bound socket is tracked with it. */
  method Accept(sockets: List<Record>, binds: List<Record>, d: int, session: int,
                ghost rs: seq<Record>, ghost t: Tables, ghost lists: set<List<int>>)
    requires Holds(sockets, binds, t) && rs == binds.Items() && lists == Inner(rs)
    modifies lists
    ensures Holds(sockets, binds, if session == -1 then t else Accepted(t, d, session))
    ensures forall i {:trigger rs[i]} :: 0 <= i < |rs| ==>
      var first := i == FirstIndex(TablesSpec.Fds(t.binds), d);
      && rs[i].comfds.Items() == old(rs[i].comfds.Items())
      && rs[i].fds.Items() == old(rs[i].fds.Items()) + if first && session != -1 then [session] else []
  {
    hide Linked, ItemsOf, Distinct, List.Valid, Separate;
    AcceptOn(binds, d, session, rs, t, lists);
    AcceptedIs(t, d, session);
    hide Accepted;
    assert binds.Items() == rs;
  }

  lemma AcceptedIs(t: Tables, d: int, session: int)
    ensures var rows := Accepted(t, d, session).binds;
            && |rows| == |t.binds| && Accepted(t, d, session).sockets == t.sockets
            && forall i :: 0 <= i < |rows| ==>
                 && rows[i].comfds == t.binds[i].comfds
                 && rows[i].fds == t.binds[i].fds + if i == FirstIndex(TablesSpec.Fds(t.binds), d) then [session] else []
  {
  }

  method AcceptOn(binds: List<Record>, d: int, session: int, ghost rs: seq<Record>, ghost t: Tables, ghost lists: set<List<int>>)
    requires binds.Valid() && rs == binds.Items() && Separate(rs) && Shows(rs, t.binds) && lists == Inner(rs)
    modifies lists
    ensures Shows(rs, if session == -1 then t.binds else Accepted(t, d, session).binds)
    ensures Accepted(t, d, session).sockets == t.sockets
  {
    hide Linked, ItemsOf, Distinct;
    if session == -1 { return; }
    assert State.Fds(rs) == TablesSpec.Fds(t.binds);
    var r := SearchFd(binds, d);
    if r != null {
      ghost var b := FirstIndex(TablesSpec.Fds(t.binds), d);
      assert r == rs[b];
      AddClient(r, session, rs, t.binds, b);
    }
  }

  // ---------------------------------------------------------------- close

  lemma {:induction false} FirstIs(rows: seq<Row>, d: int, kind: Kind, i: nat)
    requires i <= |rows| && (i < |rows| ==> TablesSpec.Tracks(rows[i], d, kind))
    requires forall j :: 0 <= j < i ==> !TablesSpec.Tracks(rows[j], d, kind)
    ensures First(rows, d, kind) == i
  {
    var k := First(rows, d, kind);
  }

  /** A search in the records is a search in the rows. */
  method Search(binds: List<Record>, d: int, kind: Kind, ghost rs: seq<Record>, ghost rows: seq<Row>)
    returns (r: Record?, ghost i: nat)
    requires binds.Valid() && rs == binds.Items() && Shows(rs, rows)
    ensures i == First(rows, d, kind) && r == if i < |rs| then rs[i] else null
  {
    hide Linked, ItemsOf;
    forall j | 0 <= j < |rs| ensures TablesSpec.Tracks(rows[j], d, kind) <==> State.Tracks(rs[j], d, kind) {
      assert rows[j] == RowOf(rs[j]);
    }
    r := SearchFds(binds, d, kind);
    assert binds.Items() == rs;
    if r == null {
      i := |rs|;
      assert forall j :: 0 <= j < |rs| ==> !State.Tracks(rs[j], d, kind);
    } else {
      i :| 0 <= i < |rs| && r == rs[i] && State.Tracks(r, d, kind) && forall j :: 0 <= j < i ==> !State.Tracks(rs[j], d, kind);
    }
    forall j | 0 <= j < i ensures !TablesSpec.Tracks(rows[j], d, kind) {
      assert !State.Tracks(rs[j], d, kind);
    }
    FirstIs(rows, d, kind, i);
  }

  method StopListening(r: Record, ghost rs: seq<Record>, ghost rows: seq<Row>, ghost b: nat)
    requires b < |rs| && r == rs[b] && Separate(rs) && Shows(rs, rows)
    modifies r`monitoring
    ensures Shows(rs, rows[b := rows[b].(monitoring := false)])
  {
    r.monitoring := false;
  }

  method DropConnection(r: Record, d: int, ghost rs: seq<Record>, ghost rows: seq<Row>, ghost b: nat)
    requires b < |rs| && r == rs[b] && Separate(rs) && Shows(rs, rows)
    modifies r.comfds
    ensures Shows(rs, rows[b := rows[b].(comfds := RemoveFirst(rows[b].comfds, d))])
  {
    hide Linked, ItemsOf;
    RemoveFd(r.comfds, d);
    forall i {:trigger rs[i]} | 0 <= i < |rs| ensures rs[i].fds != r.comfds && (i != b ==> rs[i].comfds != r.comfds) { }
  }

  method DropClient(r: Record, d: int, ghost rs: seq<Record>, ghost rows: seq<Row>, ghost b: nat)
    requires b < |rs| && r == rs[b] && Separate(rs) && Shows(rs, rows)
    modifies r.fds
    ensures Shows(rs, rows[b := rows[b].(fds := RemoveFirst(rows[b].fds, d))])
  {
    hide Linked, ItemsOf;
    RemoveFd(r.fds, d);
    forall i {:trigger rs[i]} | 0 <= i < |rs| ensures rs[i].comfds != r.fds && (i != b ==> rs[i].fds != r.fds) { }
  }

  /** The first case of `close`: a socket that is not bound. */
  method CloseUnbound(sockets: List<Record>, binds: List<Record>, d: int, ghost t: Tables) returns (found: bool)
    requires Holds(sockets, binds, t)
    modifies sockets
    ensures found <==> d in t.sockets
    ensures binds.Items() == old(binds.Items())
    ensures Holds(sockets, binds, if found then t.(sockets := RemoveFirst(t.sockets, d)) else t)
  {
    hide List.Valid, FirstIndex;
    hide Linked, Distinct, Separate;
    ghost var was, rs := sockets.Items(), binds.Items();
    var r := SearchFd(sockets, d);
    found := r != null;
    if found {
      RemoveRecord(sockets, d);
      FdsWithout(was, FirstIndex(t.sockets, d));
    }
    assert binds.Items() == rs;
  }

  lemma FdsWithout(rs: seq<Record>, b: nat)
    ensures State.Fds(Without(rs, b)) == Without(State.Fds(rs), b)
  {
  }

  /** The second case: a bound socket; whatever its record still tracks is forgotten with it. */
  method CloseBound(sockets: List<Record>, binds: List<Record>, d: int, ghost t: Tables) returns (found: bool)
    requires Holds(sockets, binds, t)
    modifies binds
    ensures found <==> d in TablesSpec.Fds(t.binds)
    ensures !found ==> binds.Items() == old(binds.Items())
    ensures Holds(sockets, binds, if found then t.(binds := Without(t.binds, FirstIndex(TablesSpec.Fds(t.binds), d))) else t)
  {
    hide List.Valid;
    hide Linked, Distinct, Separate;
    ghost var rs, b := binds.Items(), FirstIndex(TablesSpec.Fds(t.binds), d);
    assert State.Fds(rs) == TablesSpec.Fds(t.binds);
    var r := SearchFd(binds, d);
    assert binds.Items() == rs;
    found := r != null;
    if found {
      RemoveRecord(binds, d);
      ShowsWithout(rs, t.binds, b);
    }
  }

  lemma ShowsWithout(rs: seq<Record>, rows: seq<Row>, b: nat)
    requires Shows(rs, rows) && Separate(rs) && b < |rs|
    ensures Shows(Without(rs, b), Without(rows, b)) && Separate(Without(rs, b))
  {
    hide List.Valid, List.Items;
    var rs', rows' := Without(rs, b), Without(rows, b);
    forall i {:trigger rs'[i]} | 0 <= i < |rs'|
      ensures rs'[i] == rs[if i < b then i else i + 1] && rows'[i] == rows[if i < b then i else i + 1]
    {
    }
  }

  /** The last three searches of `close`. */
  method CloseInner(sockets: List<Record>, binds: List<Record>, d: int, ghost t: Tables, ghost rs: seq<Record>, ghost lists: set<List<int>>)
    requires Holds(sockets, binds, t) && rs == binds.Items() && lists == Inner(rs)
    requires !(0 <= d <= 2) && d !in t.sockets && d !in TablesSpec.Fds(t.binds)
    modifies rs`monitoring, lists
    ensures Holds(sockets, binds, Closed(t, d))
  {
    hide Linked, ItemsOf, List.Valid, Separate, Distinct;
    SearchInner(binds, d, t, rs, lists);
    hide Shows, Closed;
    assert binds.Items() == rs;
  }

  method SearchInner(binds: List<Record>, d: int, ghost t: Tables, ghost rs: seq<Record>, ghost lists: set<List<int>>)
    requires binds.Valid() && rs == binds.Items() && Separate(rs) && Shows(rs, t.binds) && lists == Inner(rs)
    requires !(0 <= d <= 2) && d !in t.sockets && d !in TablesSpec.Fds(t.binds)
    modifies rs`monitoring, lists
    ensures Closed(t, d).sockets == t.sockets && Shows(rs, Closed(t, d).binds)
  {
    hide Linked, ItemsOf, First, RowOf, List.Valid, List.Items;
    ghost var i;
    var r;
    r, i := Search(binds, d, Listener, rs, t.binds);
    if r != null {
      StopListening(r, rs, t.binds, i);
      return;
    }
    r, i := Search(binds, d, Internal, rs, t.binds);
    if r != null {
      assert r in rs;
      DropConnection(r, d, rs, t.binds, i);
      return;
    }
    r, i := Search(binds, d, Client, rs, t.binds);
    if r != null {
      assert r in rs;
      DropClient(r, d, rs, t.binds, i);
    }
  }

  /** `close`, before the descriptor itself is closed. */
  method Close(sockets: List<Record>, binds: List<Record>, d: int, ghost t: Tables,
               ghost rs: seq<Record>, ghost lists: set<List<int>>)
    requires Holds(sockets, binds, t) && rs == binds.Items() && lists == Inner(rs)
    modifies sockets, binds, rs`monitoring, lists
    ensures Holds(sockets, binds, Closed(t, d))
  {
    if d == 0 || d == 1 || d == 2 { return; }
    hide Holds, First, Without, FirstIndex;
    var found := CloseUnbound(sockets, binds, d, t);
    if found { return; }
    found := CloseBound(sockets, binds, d, t);
    if found { return; }
    CloseInner(sockets, binds, d, t, rs, lists);
  }

  // ---------------------------------------------------------------- bind

  /** How the attempt to bind the communication address ends: it was free, or somebody has it and
      answers the request with two descriptors and a verdict, or nobody answers. */
  datatype Peer = Vacant | Answering(shadowfd: int, comfd: int, verdict: int) | Silent

  /** What `bind` does to the record and to the port's shared memory before the record moves. A
      refused request falls through to the branch of the first bind, with the descriptors that
      were received. */
  method Attach(r: Record, port: int, made: int, peer: Peer, memory: Port, pgid: int)
    requires Unbound(r)
    modifies r`port, r`shadowfd, r`comfd, r`monitoring, r`version, r`transfer, memory
    ensures r.port == port && r.monitoring && !r.locked && !r.transfer
    ensures peer.Answering? ==> r.shadowfd == peer.shadowfd && r.comfd == peer.comfd
    ensures !peer.Answering? ==> r.shadowfd == r.fd && r.comfd == made
    ensures peer.Answering? && peer.verdict > 0 ==>
      && memory.Status() == old(memory.Status()) && memory.fdSem == old(memory.fdSem)
      && r.version == memory.version + if memory.pgid != pgid then 1 else 0
    ensures !(peer.Answering? && peer.verdict > 0) ==>
      memory.Status() == Status(pgid, 0, 0) && memory.fdSem == 1 && r.version == 0
  {
    r.port := port;
    r.comfd := made;
    if peer.Answering? {
      r.shadowfd := peer.shadowfd;
      r.comfd := peer.comfd;
      if peer.verdict > 0 {
        r.monitoring := true;
        r.version := memory.version;
        if memory.pgid != pgid {
          r.version := r.version + 1;
        }
        return;
      }
    }
    memory.fdSem := 1;
    r.monitoring := true;
    memory.pgid := pgid;
    r.version, memory.version := 0, 0;
    memory.transfer := 0;
    r.transfer := false;
  }

  lemma ShowsAppend(rs: seq<Record>, rows: seq<Row>, n: Record, r: Record)
    requires Shows(rs, rows) && Separate(rs) && n !in rs && n.comfds == r.comfds && n.fds == r.fds && Apart(r, rs)
    requires n.comfds.Valid() && n.fds.Valid()
    ensures Shows(rs + [n], rows + [RowOf(n)]) && Separate(rs + [n])
  {
    hide List.Valid;
    forall i | 0 <= i < |rs| ensures rs[i] != n && Others(rs[i], n) {
      assert rs[i] in rs && rs[i].comfds in Inner(rs) && rs[i].fds in Inner(rs);
    }
  }

  ghost predicate Others(a: Record, b: Record) {
    a.comfds != b.comfds && a.comfds != b.fds && a.fds != b.fds && a.fds != b.comfds
  }

  /** The tables, of which a record of an unbound socket is about to be attached. */
  ghost predicate Ready(sockets: List<Record>, binds: List<Record>, r: Record,
                        unbound: seq<Record>, rs: seq<Record>, t: Tables)
    reads sockets, binds, unbound, rs, Inner(rs), r, r.comfds, r.fds
  {
    && sockets.Valid() && binds.Valid() && sockets != binds && unbound == sockets.Items() && rs == binds.Items()
    && State.Fds(unbound) == t.sockets && Separate(rs) && Shows(rs, t.binds)
    && r in unbound && Apart(r, rs)
    && r.comfds.Valid() && r.fds.Valid() && r.comfds.Items() == r.fds.Items() == []
  }

  /** `dsu_sockets_transfer_fd` from the unbound sockets to the bound ones. */
  method Move(sockets: List<Record>, binds: List<Record>, r: Record, memory: Port,
              ghost unbound: seq<Record>, ghost rs: seq<Record>, ghost t: Tables)
    returns (n: Record)
    requires Ready(sockets, binds, r, unbound, rs, t) && r.monitoring
    modifies sockets, binds
    ensures Holds(sockets, binds, Bound(t, r.fd, r.shadowfd, r.comfd))
    ensures binds.Items() == rs + [n] && fresh(n) && n.shared == memory && n.SameAs(r)
    ensures n.comfds.Items() == n.fds.Items() == []
  {
    hide List.Valid;
    hide Linked, Distinct, Separate;
    assert r.fd in t.sockets by {
      var i :| 0 <= i < |unbound| && unbound[i] == r;
      assert State.Fds(unbound)[i] == r.fd;
    }
    n := TransferRecord(binds, sockets, r, memory);
    FdsWithout(unbound, FirstIndex(t.sockets, r.fd));
    assert RowOf(n) == Row(r.fd, r.shadowfd, r.comfd, true, [], []);
    assert Shows(rs, t.binds);
    ShowsAppend(rs, t.binds, n, r);
  }

  method FindUnbound(sockets: List<Record>, binds: List<Record>, d: int,
                     ghost unbound: seq<Record>, ghost rs: seq<Record>, ghost t: Tables)
    returns (r: Record?)
    requires Holds(sockets, binds, t) && unbound == sockets.Items() && rs == binds.Items()
    requires forall i {:trigger unbound[i]} :: 0 <= i < |unbound| ==> Unbound(unbound[i]) && Apart(unbound[i], rs)
    ensures r == null <==> d !in t.sockets
    ensures Holds(sockets, binds, t) && |rs| == |t.binds|
    ensures r != null ==> r in unbound && r.fd == d && Unbound(r) && Ready(sockets, binds, r, unbound, rs, t)
  {
    hide List.Valid;
    hide Linked, ItemsOf, Distinct;
    r := SearchFd(sockets, d);
    assert sockets.Items() == unbound && binds.Items() == rs;
    if r != null {
      assert r == unbound[FirstIndex(t.sockets, d)];
    }
  }

  /** The record that `bind` leaves in the table of bound sockets. */
  ghost predicate Attached(n: Record, d: int, port: int, made: int, peer: Peer)
    reads n, n.comfds, n.fds
  {
    && n.fd == d && n.port == port && n.monitoring && !n.locked && !n.transfer
    && n.comfds.Items() == n.fds.Items() == []
    && if peer.Answering? then n.shadowfd == peer.shadowfd && n.comfd == peer.comfd
       else n.shadowfd == d && n.comfd == made
  }

  method AttachAndMove(sockets: List<Record>, binds: List<Record>, r: Record, port: int, made: int, peer: Peer, memory: Port, pgid: int,
                       ghost unbound: seq<Record>, ghost rs: seq<Record>, ghost t: Tables)
    returns (n: Record)
    requires Unbound(r) && Ready(sockets, binds, r, unbound, rs, t)
    modifies sockets, binds, memory, r`port, r`shadowfd, r`comfd, r`monitoring, r`version, r`transfer
    ensures Holds(sockets, binds, Bound(t, old(r.fd), n.shadowfd, n.comfd))
    ensures binds.Items() == rs + [n] && fresh(n) && n.shared == memory
    ensures Attached(n, old(r.fd), port, made, peer)
    ensures peer.Answering? && peer.verdict > 0 ==>
      && memory.Status() == old(memory.Status()) && memory.fdSem == old(memory.fdSem)
      && n.version == memory.version + if memory.pgid != pgid then 1 else 0
    ensures !(peer.Answering? && peer.verdict > 0) ==>
      memory.Status() == Status(pgid, 0, 0) && memory.fdSem == 1 && n.version == 0
  {
    hide List.Valid, List.Items, FirstIndex, Without, Inner, RowOf;
    hide Linked, ItemsOf, Distinct, Separate;
    Attach(r, port, made, peer, memory, pgid);
    assert forall i {:trigger rs[i]} :: 0 <= i < |rs| ==> rs[i] != r by {
      assert forall i {:trigger rs[i]} :: 0 <= i < |rs| ==> rs[i] in rs;
    }
    assert Ready(sockets, binds, r, unbound, rs, t);
    hide Shows, Bound, Holds, RowOf, Apart;
    n := Move(sockets, binds, r, memory, unbound, rs, t);
  }

  /** `bind` on a tracked socket moves its record to the bound ones, attached to the port's memory;
      on any other descriptor it fails and changes nothing. */
  method Bind(sockets: List<Record>, binds: List<Record>, d: int, port: int, made: int, peer: Peer, memory: Port, pgid: int, bound: int,
              ghost unbound: seq<Record>, ghost t: Tables)
    returns (rc: int)
    requires Holds(sockets, binds, t) && unbound == sockets.Items()
    requires forall i {:trigger unbound[i]} :: 0 <= i < |unbound| ==> Unbound(unbound[i]) && Apart(unbound[i], binds.Items())
    modifies sockets, binds, memory
    modifies unbound`port, unbound`shadowfd, unbound`comfd, unbound`monitoring, unbound`version, unbound`transfer
    ensures d !in t.sockets ==>
      && rc == -1 && memory.Status() == old(memory.Status()) && memory.fdSem == old(memory.fdSem)
      && Holds(sockets, binds, t) && sockets.Items() == unbound && binds.Items() == old(binds.Items())
    ensures d in t.sockets ==>
      && |binds.Items()| == |t.binds| + 1 && binds.Items()[..|t.binds|] == old(binds.Items())
      && var n := binds.Items()[|t.binds|];
         && fresh(n) && n.shared == memory && Holds(sockets, binds, Bound(t, d, n.shadowfd, n.comfd))
         && n.fd == d && n.port == port && n.monitoring && !n.locked && !n.transfer
         && n.comfds.Items() == n.fds.Items() == []
         && (peer.Answering? ==> n.shadowfd == peer.shadowfd && n.comfd == peer.comfd)
         && (!peer.Answering? ==> n.shadowfd == d && n.comfd == made)
         && (if peer.Answering? && peer.verdict > 0 then
               && rc == 0 && memory.Status() == old(memory.Status()) && memory.fdSem == old(memory.fdSem)
               && n.version == memory.version + (if memory.pgid != pgid then 1 else 0)
             else
               && rc == bound && memory.Status() == Status(pgid, 0, 0) && memory.fdSem == 1 && n.version == 0)
  {
    hide Holds, Ready, Unbound, Apart, Bound;
    ghost var rs := binds.Items();
    var r := FindUnbound(sockets, binds, d, unbound, rs, t);
    if r == null {
      return -1;
    }
    var n := AttachAndMove(sockets, binds, r, port, made, peer, memory, pgid, unbound, rs, t);
    assert rs + [n] == binds.Items() && binds.Items()[..|rs|] == rs;
    rc := if peer.Answering? && peer.verdict > 0 then 0 else bound;
  }
}
