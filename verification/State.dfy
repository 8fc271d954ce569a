/** The shadow tables: singly linked lists in the heap, edited through the one link that has to
    change, each with a ghost sequence of its nodes; the records they hold; and the renaming of
    descriptors that is looked up in them. */
module State {
  import opened Steps

  // ---------------------------------------------------------------- sequences

  /** Position of the first occurrence, or the length. */
  function FirstIndex(s: seq<int>, x: int): (i: nat)
    ensures i <= |s|
    ensures i < |s| ==> s[i] == x
    ensures forall j :: 0 <= j < i ==> s[j] != x
  {
    if s == [] then 0 else if s[0] == x then 0 else 1 + FirstIndex(s[1..], x)
  }

  lemma FirstIndexIs(s: seq<int>, x: int, i: nat)
    requires i <= |s| && (i < |s| ==> s[i] == x) && forall j :: 0 <= j < i ==> s[j] != x
    ensures FirstIndex(s, x) == i
  {
    var k := FirstIndex(s, x);
  }

  function Without<T>(s: seq<T>, i: nat): seq<T> {
    if i < |s| then s[..i] + s[i + 1..] else s
  }

  /** The list without the first occurrence of `x`. */
  function RemoveFirst(s: seq<int>, x: int): seq<int> { Without(s, FirstIndex(s, x)) }

  ghost predicate Distinct<T>(s: seq<T>) {
    forall i, j :: 0 <= i < j < |s| ==> s[i] != s[j]
  }

  lemma WithoutElements<T>(s: seq<T>, i: nat)
    requires i < |s|
    ensures |Without(s, i)| == |s| - 1
    ensures forall j :: 0 <= j < |s| - 1 ==> Without(s, i)[j] == if j < i then s[j] else s[j + 1]
    ensures Distinct(s) ==> Distinct(Without(s, i))
  {
  }

  /** Removing a descriptor that is listed once makes it unlisted and touches no other. */
  lemma RemoveFirstForgets(s: seq<int>, x: int)
    requires Distinct(s)
    ensures Distinct(RemoveFirst(s, x))
    ensures forall y :: y in RemoveFirst(s, x) <==> y in s && y != x
  {
    var i := FirstIndex(s, x);
    var r := Without(s, i);
    forall y | y in s && y != x ensures y in r {
      var j :| 0 <= j < |s| && s[j] == y;
      assert if j < i then r[j] == y else r[j - 1] == y;
    }
  }

  // ---------------------------------------------------------------- linked lists

  class Node<T> {
    const item: T

    constructor (item: T)
      ensures this.item == item
    {
      this.item := item;
    }
  }

  /** The node at a position, null past the end. */
  ghost function At<T>(nodes: seq<Node<T>>, i: nat): Node?<T> {
    if i < |nodes| then nodes[i] else null
  }

  ghost function ItemsOf<T>(nodes: seq<Node<T>>): (s: seq<T>)
    ensures |s| == |nodes| && forall i :: 0 <= i < |s| ==> s[i] == nodes[i].item
  {
    seq(|nodes|, i requires 0 <= i < |nodes| => nodes[i].item)
  }

  lemma ItemsWithout<T>(nodes: seq<Node<T>>, i: nat)
    ensures ItemsOf(Without(nodes, i)) == Without(ItemsOf(nodes), i)
  {
  }

  ghost predicate Linked<T>(nodes: seq<Node<T>>, next: map<Node<T>, Node?<T>>) {
    && Distinct(nodes)
    && (forall i :: 0 <= i < |nodes| ==> nodes[i] in next)
    && (forall i {:trigger next[nodes[i]]} :: 0 <= i < |nodes| ==> next[nodes[i]] == At(nodes, i + 1))
  }

  lemma LinkedAppend<T>(nodes: seq<Node<T>>, next: map<Node<T>, Node?<T>>, node: Node<T>)
    requires Linked(nodes, next) && node !in nodes
    ensures nodes == [] ==> Linked([node], next[node := null])
    ensures nodes != [] ==> Linked(nodes + [node], next[nodes[|nodes| - 1] := node][node := null])
  {
  }

  /** Changing the one link that leads to a node takes it out of the list. */
  lemma LinkedWithout<T>(nodes: seq<Node<T>>, next: map<Node<T>, Node?<T>>, i: nat)
    requires Linked(nodes, next) && i < |nodes|
    ensures Linked(Without(nodes, i),
                   (if i == 0 then next else next[nodes[i - 1] := next[nodes[i]]]) - {nodes[i]})
  {
    WithoutElements(nodes, i);
    var next' := (if i == 0 then next else next[nodes[i - 1] := next[nodes[i]]]) - {nodes[i]};
    var r := Without(nodes, i);
    forall j | 0 <= j < |r| ensures r[j] in next' && next'[r[j]] == At(r, j + 1) {
      assert r[j] == nodes[if j < i then j else j + 1];
    }
  }

  /** `next` holds the links of the nodes that are allocated: following the link of a node that
      was freed is an error that the verifier excludes. */
  class List<T> {
    var head: Node?<T>
    var next: map<Node<T>, Node?<T>>
    ghost var nodes: seq<Node<T>>

    ghost predicate Valid()
      reads this
    {
      head == At(nodes, 0) && Linked(nodes, next)
    }

    ghost function Items(): seq<T>
      reads this
    {
      ItemsOf(nodes)
    }

    constructor ()
      ensures Valid() && nodes == []
    {
      head, next, nodes := null, map[], [];
    }

    /** Appends a node: the link that changes is the last one, or `head`. */
    method Add(item: T)
      requires Valid()
      modifies this
      ensures Valid() && Items() == old(Items()) + [item]
    {
      var node := new Node(item);
      LinkedAppend(nodes, next, node);
      if head == null {
        head := node;
      } else {
        var last: Node<T> := head;
        ghost var i := 0;
        while next[last] != null
          invariant 0 <= i < |nodes| && last == nodes[i]
          decreases |nodes| - i
        {
          last, i := next[last], i + 1;
        }
        next := next[last := node];
      }
      next, nodes := next[node := null], nodes + [node];
    }

    /** The nodes in the order in which `dsu_forall_sockets` visits them; no visitor changes a
        link of the list that is walked. */
    method Walk() returns (items: seq<T>)
      requires Valid()
      ensures items == Items()
    {
      items := [];
      var cur := head;
      while cur != null
        invariant |items| <= |nodes| && cur == At(nodes, |items|) && items == Items()[..|items|]
        decreases |nodes| - |items|
      {
        items, cur := items + [cur.item], next[cur];
      }
    }

    /** Removes and frees the node at position `i`, by changing the one link that leads to it. */
    method Unlink(prev: Node?<T>, cur: Node<T>, ghost i: nat)
      requires Valid() && i < |nodes| && cur == nodes[i] && prev == (if i == 0 then null else At(nodes, i - 1))
      modifies this
      ensures Valid() && nodes == Without(old(nodes), i) && Items() == Without(old(Items()), i)
    {
      LinkedWithout(nodes, next, i);
      ItemsWithout(nodes, i);
      if prev == null {
        head := next[cur];
      } else {
        next := next[prev := next[cur]];
      }
      next := next - {cur};
      nodes := Without(nodes, i);
    }
  }

  // ---------------------------------------------------------------- lists of descriptors

  /** A cursor that is not past the end is at an allocated node, linked to its successor. */
  lemma CurrentNode(list: List<int>, cur: Node<int>, k: nat)
    requires list.Valid() && cur == At(list.nodes, k)
    ensures k < |list.nodes| && cur.item == list.Items()[k]
    ensures cur in list.next && list.next[cur] == At(list.nodes, k + 1) == At(Without(list.nodes, k), k)
  {
  }

  /** Unlinks the first node that holds `fd`, if there is one. */
  method RemoveFd(list: List<int>, fd: int)
    requires list.Valid()
    modifies list
    ensures list.Valid() && list.Items() == RemoveFirst(old(list.Items()), fd)
    ensures list.nodes == Without(old(list.nodes), FirstIndex(old(list.Items()), fd))
  {
    ghost var i := 0;
    var prev: Node?<int>, cur := null, list.head;
    while cur != null && cur.item != fd
      invariant 0 <= i <= |list.nodes| && cur == At(list.nodes, i)
      invariant prev == (if i == 0 then null else At(list.nodes, i - 1))
      invariant forall j :: 0 <= j < i ==> list.Items()[j] != fd
      decreases |list.nodes| - i
    {
      prev, cur, i := cur, list.next[cur], i + 1;
    }
    assert i == FirstIndex(list.Items(), fd);
    if cur != null {
      list.Unlink(prev, cur, i);
    }
  }

  method ContainsFd(list: List<int>, fd: int) returns (found: bool)
    requires list.Valid()
    ensures found <==> fd in list.Items()
  {
    var cur := list.head;
    ghost var i := 0;
    while cur != null
      invariant 0 <= i <= |list.nodes| && cur == At(list.nodes, i)
      invariant fd !in list.Items()[..i]
      decreases |list.nodes| - i
    {
      if cur.item == fd {
        assert list.Items()[i] == fd;
        return true;
      }
      cur, i := list.next[cur], i + 1;
    }
    assert list.Items()[..i] == list.Items();
    return false;
  }

  // ---------------------------------------------------------------- records

  /** What an application registers with, and gets from, `epoll`: the event mask and the 64 bits
      of user data. */
  datatype Event = Event(events: int, data: int)

  /** What all processes on a port share: the three numbers of `status`, and the descriptor lock. */
  class Port {
    var pgid: int
    var version: int
    var transfer: int
    var fdSem: int

    constructor ()
      ensures pgid == version == transfer == 0 && fdSem == 1
    {
      pgid, version, transfer, fdSem := 0, 0, 0, 1;
    }

    ghost function Status(): Status
      reads this
    {
      Steps.Status(pgid, version, transfer)
    }

    /** What the other processes have made of the shared memory by now. */
    method Observe(seen: Seen)
      modifies this
      ensures Status() == seen.status && fdSem == seen.fdSem
    {
      pgid, version, transfer, fdSem := seen.status.pgid, seen.status.version, seen.status.transfer, seen.fdSem;
    }
  }

  datatype Seen = Seen(status: Status, fdSem: nat)

  /** A record of `struct dsu_socket_list`; `next` is in the list node. */
  class Record {
    var fd: int
    var shadowfd: int
    var port: int
    var ev: Event
    var comfd: int
    var monitoring: bool
    var version: int
    var locked: bool
    var transfer: bool
    var blocking: bool
    const comfds: List<int>
    const fds: List<int>
    const shared: Port

    ghost function Flags(): Flags
      reads this
    {
      Steps.Flags(version, monitoring, locked, transfer)
    }

    /** A socket as `socket` records it: its own shadow, nothing bound yet. */
    constructor (sockfd: int)
      ensures fd == shadowfd == sockfd && port == 0 && comfd == -1 && ev == Event(0, 0)
      ensures !monitoring && !locked && !transfer && !blocking && version == 0
      ensures comfds.Valid() && fds.Valid() && comfds.nodes == fds.nodes == []
      ensures comfds != fds && fresh(comfds) && fresh(fds) && fresh(shared)
    {
      fd, shadowfd, port, comfd, ev := sockfd, sockfd, 0, -1, Event(0, 0);
      monitoring, version, locked, transfer, blocking := false, 0, false, false, false;
      comfds := new List<int>();
      fds := new List<int>();
      shared := new Port();
    }

    /** `memcpy` of a record: the copy takes over the lists. `memory` is the shared memory that the
        record is attached to by then. */
    constructor Copy(r: Record, memory: Port)
      ensures SameAs(r) && shared == memory
    {
      fd, shadowfd, port, comfd, ev := r.fd, r.shadowfd, r.port, r.comfd, r.ev;
      monitoring, version, locked, transfer, blocking := r.monitoring, r.version, r.locked, r.transfer, r.blocking;
      comfds, fds, shared := r.comfds, r.fds, memory;
    }

    ghost predicate SameAs(r: Record)
      reads this, r
    {
      && fd == r.fd && shadowfd == r.shadowfd && port == r.port && comfd == r.comfd && ev == r.ev
      && monitoring == r.monitoring && version == r.version && locked == r.locked
      && transfer == r.transfer && blocking == r.blocking && comfds == r.comfds && fds == r.fds
    }
  }

  ghost function Fds(rs: seq<Record>): (s: seq<int>)
    reads rs
    ensures |s| == |rs| && forall i :: 0 <= i < |s| ==> s[i] == rs[i].fd
  {
    seq(|rs|, i requires 0 <= i < |rs| reads rs => rs[i].fd)
  }

  ghost function Shadows(rs: seq<Record>): (s: seq<int>)
    reads rs
    ensures |s| == |rs| && forall i :: 0 <= i < |s| ==> s[i] == rs[i].shadowfd
  {
    seq(|rs|, i requires 0 <= i < |rs| reads rs => rs[i].shadowfd)
  }

  method AddRecord(list: List<Record>, r: Record, memory: Port) returns (copy: Record)
    requires list.Valid()
    modifies list
    ensures list.Valid() && fresh(copy) && copy.SameAs(r) && copy.shared == memory && list.Items() == old(list.Items()) + [copy]
  {
    copy := new Record.Copy(r, memory);
    list.Add(copy);
  }

  method RemoveRecord(list: List<Record>, fd: int)
    requires list.Valid()
    modifies list
    ensures list.Valid()
    ensures list.Items() == Without(old(list.Items()), FirstIndex(old(Fds(list.Items())), fd))
  {
    ghost var i := 0;
    ghost var fds := Fds(list.Items());
    var prev: Node?<Record>, cur := null, list.head;
    while cur != null && cur.item.fd != fd
      invariant 0 <= i <= |list.nodes| && cur == At(list.nodes, i)
      invariant prev == (if i == 0 then null else At(list.nodes, i - 1))
      invariant forall j :: 0 <= j < i ==> fds[j] != fd
      decreases |list.nodes| - i
    {
      prev, cur, i := cur, list.next[cur], i + 1;
    }
    assert i == FirstIndex(fds, fd);
    if cur != null {
      list.Unlink(prev, cur, i);
    }
  }

  /** The record moves to the other list: a copy is appended there, the first record with its
      descriptor is removed here. */
  method TransferRecord(dest: List<Record>, src: List<Record>, r: Record, memory: Port) returns (copy: Record)
    requires dest.Valid() && src.Valid() && dest != src
    modifies dest, src
    ensures dest.Valid() && src.Valid() && fresh(copy) && copy.SameAs(r) && copy.shared == memory
    ensures dest.Items() == old(dest.Items()) + [copy]
    ensures src.Items() == Without(old(src.Items()), FirstIndex(old(Fds(src.Items())), old(r.fd)))
  {
    copy := AddRecord(dest, r, memory);
    RemoveRecord(src, r.fd);
  }

  method SearchFd(list: List<Record>, fd: int) returns (r: Record?)
    requires list.Valid()
    ensures var i := FirstIndex(Fds(list.Items()), fd);
            r == if i < |list.Items()| then list.Items()[i] else null
  {
    var cur := list.head;
    ghost var i, s := 0, Fds(list.Items());
    while cur != null
      invariant 0 <= i <= |list.nodes| && cur == At(list.nodes, i)
      invariant forall j :: 0 <= j < i ==> s[j] != fd
      decreases |list.nodes| - i
    {
      if cur.item.fd == fd {
        FirstIndexIs(s, fd, i);
        return cur.item;
      }
      cur, i := list.next[cur], i + 1;
    }
    FirstIndexIs(s, fd, i);
    return null;
  }

  method SearchShadowFd(list: List<Record>, fd: int) returns (r: Record?)
    requires list.Valid()
    ensures var i := FirstIndex(Shadows(list.Items()), fd);
            r == if i < |list.Items()| then list.Items()[i] else null
  {
    var cur := list.head;
    ghost var i, s := 0, Shadows(list.Items());
    while cur != null
      invariant 0 <= i <= |list.nodes| && cur == At(list.nodes, i)
      invariant forall j :: 0 <= j < i ==> s[j] != fd
      decreases |list.nodes| - i
    {
      if cur.item.shadowfd == fd {
        FirstIndexIs(s, fd, i);
        return cur.item;
      }
      cur, i := list.next[cur], i + 1;
    }
    FirstIndexIs(s, fd, i);
    return null;
  }

  /** The lists and the descriptor that `dsu_sockets_search_fds` looks in. */
  datatype Kind = Client | Listener | Internal

  ghost predicate Tracks(r: Record, fd: int, kind: Kind)
    reads r, r.comfds, r.fds
  {
    match kind
    case Client => fd in r.fds.Items()
    case Listener => r.comfd == fd && r.monitoring
    case Internal => fd in r.comfds.Items()
  }

  method TracksFd(r: Record, fd: int, kind: Kind) returns (b: bool)
    requires r.comfds.Valid() && r.fds.Valid()
    ensures b <==> Tracks(r, fd, kind)
  {
    match kind {
      case Client => b := ContainsFd(r.fds, fd);
      case Listener => b := r.comfd == fd && r.monitoring;
      case Internal => b := ContainsFd(r.comfds, fd);
    }
  }

  ghost predicate InnerValid(rs: seq<Record>)
    reads set r | r in rs :: r.comfds, set r | r in rs :: r.fds
  {
    forall i {:trigger rs[i]} :: 0 <= i < |rs| ==> rs[i].comfds.Valid() && rs[i].fds.Valid()
  }

  /** The first record that keeps the descriptor in that place. */
  method SearchFds(list: List<Record>, fd: int, kind: Kind) returns (r: Record?)
    requires list.Valid() && InnerValid(list.Items())
    ensures r == null ==> forall i :: 0 <= i < |list.Items()| ==> !Tracks(list.Items()[i], fd, kind)
    ensures r != null ==> exists i :: 0 <= i < |list.Items()| && r == list.Items()[i] && Tracks(r, fd, kind)
                                     && forall j :: 0 <= j < i ==> !Tracks(list.Items()[j], fd, kind)
  {
    hide Linked, ItemsOf, Tracks;
    var rs := list.Walk();
    for i := 0 to |rs|
      invariant forall j :: 0 <= j < i ==> !Tracks(rs[j], fd, kind)
    {
      var b := TracksFd(rs[i], fd, kind);
      if b { return rs[i]; }
    }
    return null;
  }

  /** The descriptor belongs to the library: a monitored listener or an internal connection. */
  ghost predicate Internally(rs: seq<Record>, fd: int)
    reads rs, set r | r in rs :: r.comfds
  {
    exists i {:trigger rs[i]} :: 0 <= i < |rs| && ((rs[i].comfd == fd && rs[i].monitoring) || fd in rs[i].comfds.Items())
  }

  /** `dsu_is_internal_conn`. */
  method IsInternalConn(list: List<Record>, fd: int) returns (b: bool)
    requires list.Valid() && InnerValid(list.Items())
    ensures b <==> Internally(list.Items(), fd)
  {
    var r := SearchFds(list, fd, Listener);
    if r != null { return true; }
    r := SearchFds(list, fd, Internal);
    return r != null;
  }

  // ---------------------------------------------------------------- renaming descriptors

  /** `dsu_shadowfd` over the descriptors and shadow descriptors of the bound sockets. */
  function ShadowOf(fds: seq<int>, shadows: seq<int>, d: int): int
    requires |fds| == |shadows|
  {
    var i := FirstIndex(fds, d);
    if i < |fds| then shadows[i] else d
  }

  /** `dsu_originalfd`. */
  function OriginalOf(fds: seq<int>, shadows: seq<int>, d: int): int
    requires |fds| == |shadows|
  {
    var i := FirstIndex(shadows, d);
    if i < |shadows| then fds[i] else d
  }

  method ShadowFd(binds: List<Record>, fd: int) returns (d: int)
    requires binds.Valid()
    ensures d == ShadowOf(Fds(binds.Items()), Shadows(binds.Items()), fd)
  {
    var r := SearchFd(binds, fd);
    d := if r != null then r.shadowfd else fd;
  }

  method OriginalFd(binds: List<Record>, shadowfd: int) returns (d: int)
    requires binds.Valid()
    ensures d == OriginalOf(Fds(binds.Items()), Shadows(binds.Items()), shadowfd)
  {
    var r := SearchShadowFd(binds, shadowfd);
    d := if r != null then r.fd else shadowfd;
  }

  /** Renaming there and back. With pairwise distinct shadow descriptors the round trip returns a
      descriptor exactly when it is bound or is not itself a shadow descriptor. */
  lemma RenamingRoundTrip(fds: seq<int>, shadows: seq<int>, d: int)
    requires |fds| == |shadows| && Distinct(shadows)
    ensures OriginalOf(fds, shadows, ShadowOf(fds, shadows, d)) == d <==> d in fds || d !in shadows
  {
    var i := FirstIndex(fds, d);
    if i < |fds| {
      var j := FirstIndex(shadows, shadows[i]);
      assert j <= i && !(j < i);
    } else {
      assert d !in fds;
    }
  }

  /** The round trip survives every list edit: an appended record with new descriptors, and a
      removed record, leave the other records' renaming as it was. */
  lemma RenamingSurvivesRemoval(fds: seq<int>, shadows: seq<int>, i: nat, d: int)
    requires |fds| == |shadows| && Distinct(fds) && Distinct(shadows) && i < |fds| && d != fds[i]
    ensures |Without(fds, i)| == |Without(shadows, i)| && Distinct(Without(fds, i)) && Distinct(Without(shadows, i))
    ensures ShadowOf(Without(fds, i), Without(shadows, i), d) == ShadowOf(fds, shadows, d)
  {
    WithoutElements(fds, i);
    WithoutElements(shadows, i);
    var k := FirstIndex(fds, d);
    FirstIndexIs(Without(fds, i), d, if k < i then k else k - 1);
  }

  lemma RenamingSurvivesAppend(fds: seq<int>, shadows: seq<int>, fd: int, shadow: int, d: int)
    requires |fds| == |shadows| && Distinct(fds) && Distinct(shadows) && fd !in fds && shadow !in shadows
    ensures Distinct(fds + [fd]) && Distinct(shadows + [shadow])
    ensures ShadowOf(fds + [fd], shadows + [shadow], d) == if d == fd then shadow else ShadowOf(fds, shadows, d)
  {
    var k := FirstIndex(fds, d);
    FirstIndexIs(fds + [fd], d, if k == |fds| && d != fd then k + 1 else k);
  }
}
