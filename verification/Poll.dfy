/** The wrapper around `poll`: the user's entries are copied, renamed and compressed, and what the
    kernel marks in the copy is mapped back by a walk over both arrays. */
module Poll {
  import opened Steps
  import opened State
  import Core

  datatype PollFd = PollFd(fd: int, events: int, revents: int)

  /** The part of an entry that `dsu_compress_fds` moves. */
  datatype Slot = Slot(fd: int, events: int)

  function Slots(s: seq<PollFd>): (r: seq<Slot>)
    ensures |r| == |s| && forall i :: 0 <= i < |s| ==> r[i] == Slot(s[i].fd, s[i].events)
  {
    seq(|s|, i requires 0 <= i < |s| => Slot(s[i].fd, s[i].events))
  }

  /** The slots that are in use, in order, and the positions they come from. */
  function Used(s: seq<Slot>): seq<Slot> {
    if s == [] then []
    else Used(s[..|s| - 1]) + if s[|s| - 1].fd == -1 then [] else [s[|s| - 1]]
  }

  function Sources(s: seq<Slot>): (r: seq<nat>)
    ensures |r| == |Used(s)|
  {
    if s == [] then []
    else Sources(s[..|s| - 1]) + if s[|s| - 1].fd == -1 then [] else [|s| - 1]
  }

  // ---------------------------------------------------------------- compression

  lemma {:induction false} UsedWithout(s: seq<Slot>, i: nat)
    requires i < |s| && s[i].fd == -1
    ensures Used(Without(s, i)) == Used(s)
  {
    var n := |s| - 1;
    if i < n {
      UsedWithout(s[..n], i);
      assert Without(s, i)[..n - 1] == Without(s[..n], i);
      assert Without(s, i)[n - 1] == s[n];
    } else {
      assert Without(s, i) == s[..n];
    }
  }

  lemma {:induction false} UsedAll(s: seq<Slot>)
    requires forall i :: 0 <= i < |s| ==> s[i].fd != -1
    ensures Used(s) == s
  {
    if s != [] {
      UsedAll(s[..|s| - 1]);
      assert s == s[..|s| - 1] + [s[|s| - 1]];
    }
  }

  function Moved(s: seq<PollFd>, k: nat): PollFd
    requires k + 1 < |s|
  {
    PollFd(s[k + 1].fd, s[k + 1].events, s[k].revents)
  }

  lemma ShiftedSlots(was: seq<PollFd>, now: seq<PollFd>, i: nat, nfds: nat)
    requires i < nfds < |was| == |now|
    requires forall k :: 0 <= k < i ==> now[k] == was[k]
    requires forall k :: i <= k < nfds ==> now[k] == Moved(was, k)
    requires forall k :: nfds <= k < |was| ==> now[k] == was[k]
    ensures Slots(now[..nfds - 1]) == Without(Slots(was[..nfds]), i)
    ensures forall k :: 0 <= k < |was| ==> now[k].revents == was[k].revents
  {
    hide Distinct;
    var s, r := Slots(was[..nfds]), Slots(now[..nfds - 1]);
    forall k | 0 <= k < nfds - 1 ensures r[k] == Without(s, i)[k] {
      if k >= i { assert now[k] == Moved(was, k); }
    }
    forall k | 0 <= k < |was| ensures now[k].revents == was[k].revents {
      if i <= k < nfds { assert now[k] == Moved(was, k); }
    }
  }

  /** The inner loop of `dsu_compress_fds`: descriptors and events move one to the left, results do
      not. It reads the entry after the last one. */
  method ShiftLeft(fds: array<PollFd>, i: nat, nfds: nat)
    requires i < nfds < fds.Length
    modifies fds
    ensures Slots(fds[..nfds - 1]) == Without(Slots(old(fds[..nfds])), i)
    ensures forall k :: 0 <= k < fds.Length ==> fds[k].revents == old(fds[k].revents)
  {
    hide Distinct, Slots, Without;
    ghost var was := fds[..];
    for j := i to nfds
      invariant forall k :: 0 <= k < i || j <= k < fds.Length ==> fds[k] == was[k]
      invariant forall k :: i <= k < j ==> fds[k] == Moved(was, k)
    {
      assert fds[j + 1] == was[j + 1];
      fds[j] := fds[j].(fd := fds[j + 1].fd, events := fds[j + 1].events);
    }
    ShiftedSlots(was, fds[..], i, nfds);
    assert was[..nfds] == old(fds[..nfds]) && fds[..][..nfds - 1] == fds[..nfds - 1];
    forall k | 0 <= k < fds.Length ensures fds[k].revents == old(fds[k].revents) {
      assert fds[..][k].revents == was[k].revents;
    }
  }

  /** `dsu_compress_fds`. What is in use is kept in order; a single unused entry makes it read
      `fds[nfds]`, so the array has to be longer than the list. */
  method Compress(fds: array<PollFd>, nfds: nat) returns (n: nat)
    requires nfds <= fds.Length
    requires nfds < fds.Length || forall i :: 0 <= i < nfds ==> fds[i].fd != -1
    modifies fds
    ensures n <= nfds && Slots(fds[..n]) == Used(Slots(old(fds[..nfds])))
    ensures forall k :: 0 <= k < fds.Length ==> fds[k].revents == old(fds[k].revents)
  {
    hide Used, Distinct;
    n := nfds;
    ghost var s := Slots(fds[..nfds]);
    var i := 0;
    while i < n
      invariant i <= n <= nfds && (nfds < fds.Length || forall k :: 0 <= k < n ==> fds[k].fd != -1)
      invariant forall k :: 0 <= k < i ==> fds[k].fd != -1
      invariant Used(Slots(fds[..n])) == Used(s)
      invariant forall k :: 0 <= k < fds.Length ==> fds[k].revents == old(fds[k].revents)
      decreases n - i
    {
      if fds[i].fd == -1 {
        ghost var was := Slots(fds[..n]);
        UsedWithout(was, i);
        WithoutElements(was, i);
        ShiftLeft(fds, i, n);
        n := n - 1;
        forall k | 0 <= k < i ensures fds[k].fd != -1 {
          assert Slots(fds[..n])[k] == Without(was, i)[k] == was[k];
        }
      } else {
        i := i + 1;
      }
    }
    UsedAll(Slots(fds[..n]));
  }

  // ---------------------------------------------------------------- renaming

  /** What the renaming looks at in a record. */
  datatype Name = Name(fd: int, shadowfd: int, monitoring: bool, blocking: bool)

  /** `ns` is what the renaming sees in the records. */
  ghost predicate Shows(rs: seq<Record>, ns: seq<Name>)
    reads rs
  {
    |ns| == |rs| && forall i {:trigger rs[i]} :: 0 <= i < |rs| ==>
      && ns[i].fd == rs[i].fd && ns[i].shadowfd == rs[i].shadowfd
      && ns[i].monitoring == rs[i].monitoring && ns[i].blocking == rs[i].blocking
  }

  function FdsOf(ns: seq<Name>): (s: seq<int>)
    ensures |s| == |ns| && forall i :: 0 <= i < |s| ==> s[i] == ns[i].fd
  {
    seq(|ns|, i requires 0 <= i < |ns| => ns[i].fd)
  }

  function ShadowsOf(ns: seq<Name>): (s: seq<int>)
    ensures |s| == |ns| && forall i :: 0 <= i < |s| ==> s[i] == ns[i].shadowfd
  {
    seq(|ns|, i requires 0 <= i < |ns| => ns[i].shadowfd)
  }

  /** The lock is asked for while the port is being transferred; unlike in `select`, only this
      port's counter matters. */
  predicate Asks(n: Name, seen: Seen) { n.monitoring && seen.status.transfer > 0 && n.blocking }

  predicate Admits(n: Name, seen: Seen) { n.monitoring && (Asks(n, seen) ==> seen.fdSem > 0) }

  function Rename(e: PollFd, ns: seq<Name>, seen: Seen): (r: PollFd)
    ensures r.events == e.events
  {
    var b := FirstIndex(FdsOf(ns), e.fd);
    if b == |ns| then e
    else PollFd(if Admits(ns[b], seen) then ns[b].shadowfd else -1, e.events, 0)
  }

  /** The record gets the lock: a transfer of its blocking socket is going on, and the lock is free. */
  predicate Gets(n: Name, seen: Seen) { n.monitoring && n.blocking && seen.status.transfer > 0 && seen.fdSem > 0 }

  ghost predicate DifferentPorts(rs: seq<Record>) { forall i, j :: 0 <= i < j < |rs| ==> rs[i].shared != rs[j].shared }

  /** The descriptor that the kernel is asked about for an entry of the caller: an unbound one is its
      own; for a bound one it is the shadow descriptor, if the record monitors and, in a transfer of
      a blocking socket, gets the lock. */
  function ShownAs(e: PollFd, ns: seq<Name>, seen: Seen): int {
    var b := FirstIndex(FdsOf(ns), e.fd);
    if b == |ns| then e.fd
    else if ns[b].monitoring && (seen.status.transfer > 0 && ns[b].blocking ==> Gets(ns[b], seen)) then ns[b].shadowfd
    else -1
  }

  lemma RenameIs(e: PollFd, ns: seq<Name>, seen: Seen)
    ensures Rename(e, ns, seen).fd == ShownAs(e, ns, seen)
  {
  }

  /** What takes the place of a bound descriptor: the shadow descriptor, or nothing. */
  method AdmitFd(r: Record, seen: Seen) returns (fd: int)
    modifies r`locked, r.shared
    ensures fd == if r.monitoring && (seen.status.transfer > 0 && r.blocking ==> seen.fdSem > 0) then r.shadowfd else -1
    ensures r.shared.Status() == seen.status
    ensures var got := r.monitoring && seen.status.transfer > 0 && r.blocking && seen.fdSem > 0;
            r.shared.fdSem == seen.fdSem - (if got then 1 else 0) && (r.locked <==> old(r.locked) || got)
  {
    r.shared.Observe(seen);
    fd := -1;
    if r.monitoring {
      if r.shared.transfer > 0 && r.blocking {
        var acquired := Core.TryLockFd(r);
        if acquired {
          fd := r.shadowfd;
        }
      } else {
        fd := r.shadowfd;
      }
    }
  }

  /** One entry of `dsu_pre_poll`. */
  method RenameEntry(e: PollFd, binds: List<Record>, seen: Seen, ghost rs: seq<Record>, ghost ns: seq<Name>, ghost ports: set<Port>)
    returns (e': PollFd)
    requires binds.Valid() && rs == binds.Items() && Distinct(rs) && Shows(rs, ns)
    requires forall i :: 0 <= i < |rs| ==> rs[i].shared in ports
    modifies rs`locked, ports
    ensures Shows(rs, ns) && e' == Rename(e, ns, seen)
    ensures var b := FirstIndex(FdsOf(ns), e.fd);
            forall i :: 0 <= i < |ns| ==>
              (rs[i].locked <==> old(rs[i].locked) || (i == b && Gets(ns[b], seen)))
    ensures DifferentPorts(rs) ==> forall i :: 0 <= i < |ns| ==>
      rs[i].shared.fdSem == if i == FirstIndex(FdsOf(ns), e.fd) then seen.fdSem - (if Gets(ns[i], seen) then 1 else 0)
                            else old(rs[i].shared.fdSem)
  {
    hide Linked, ItemsOf, FirstIndex;
    assert Fds(rs) == FdsOf(ns);
    var r := SearchFd(binds, e.fd);
    hide List.Valid, List.Items;
    e' := e;
    if r != null {
      ghost var b := FirstIndex(FdsOf(ns), e.fd);
      assert r == rs[b];
      var fd := AdmitFd(r, seen);
      e' := PollFd(fd, e.events, 0);
    }
  }

  function Renamed(s: seq<PollFd>, ns: seq<Name>, seen: nat -> Seen): (r: seq<PollFd>)
    ensures |r| == |s| && forall i :: 0 <= i < |s| ==> r[i] == Rename(s[i], ns, seen(i))
  {
    seq(|s|, i requires 0 <= i < |s| => Rename(s[i], ns, seen(i)))
  }

  /** One of the first `n` entries made its record, number `b`, take the lock. */
  ghost predicate Took(s: seq<PollFd>, n: nat, ns: seq<Name>, seen: nat -> Seen, b: nat)
    requires n <= |s| && b < |ns|
  {
    exists i :: 0 <= i < n && FirstIndex(FdsOf(ns), s[i].fd) == b && Gets(ns[b], seen(i))
  }

  /** The semaphore of record `b` after `n` entries: as it was seen for the last entry that names the
      record, less one if the record got the lock there. */
  ghost function SemAfter(s: seq<PollFd>, n: nat, ns: seq<Name>, seen: nat -> Seen, b: nat, before: int): int
    requires n <= |s| && b < |ns|
  {
    if n == 0 then before
    else if FirstIndex(FdsOf(ns), s[n - 1].fd) == b then seen(n - 1).fdSem - (if Gets(ns[b], seen(n - 1)) then 1 else 0)
    else SemAfter(s, n - 1, ns, seen, b, before)
  }

  /** The locks and the semaphores, which were `locks` and `sems`, after `n` entries. */
  ghost predicate Tried(rs: seq<Record>, ns: seq<Name>, s: seq<PollFd>, n: nat, seen: nat -> Seen, locks: seq<bool>, sems: seq<int>)
    requires n <= |s|
    reads rs, set r | r in rs :: r.shared
  {
    && |locks| == |sems| == |rs| == |ns|
    && (forall b :: 0 <= b < |ns| ==> (rs[b].locked <==> locks[b] || Took(s, n, ns, seen, b)))
    && (DifferentPorts(rs) ==> forall b :: 0 <= b < |ns| ==> rs[b].shared.fdSem == SemAfter(s, n, ns, seen, b, sems[b]))
  }

  method RenameNext(e: PollFd, binds: List<Record>, ghost rs: seq<Record>, ghost ns: seq<Name>, ghost ports: set<Port>,
                    ghost s: seq<PollFd>, ghost i: nat, seen: Seen, ghost all: nat -> Seen, ghost locks: seq<bool>, ghost sems: seq<int>)
    returns (e': PollFd)
    requires binds.Valid() && rs == binds.Items() && Distinct(rs) && Shows(rs, ns)
    requires forall i :: 0 <= i < |rs| ==> rs[i].shared in ports
    requires i < |s| && s[i] == e && all(i) == seen && Tried(rs, ns, s, i, all, locks, sems)
    modifies rs`locked, ports
    ensures Shows(rs, ns) && e' == Rename(e, ns, seen) && Tried(rs, ns, s, i + 1, all, locks, sems)
  {
    hide Distinct, Rename, Gets, List.Valid, List.Items, DifferentPorts, FirstIndex, Shows;
    assert |rs| == |ns|;
    e' := RenameEntry(e, binds, seen, rs, ns, ports);
  }

  method RenameAll(fds: array<PollFd>, nfds: nat, binds: List<Record>, seen: nat -> Seen,
                   ghost rs: seq<Record>, ghost ns: seq<Name>, ghost ports: set<Port>, ghost locks: seq<bool>, ghost sems: seq<int>)
    requires nfds <= fds.Length
    requires binds.Valid() && rs == binds.Items() && Distinct(rs) && Shows(rs, ns)
    requires forall i :: 0 <= i < |rs| ==> rs[i].shared in ports
    requires Tried(rs, ns, fds[..nfds], 0, seen, locks, sems)
    modifies fds, rs`locked, ports
    ensures Shows(rs, ns) && fds[..nfds] == Renamed(old(fds[..nfds]), ns, seen)
    ensures Tried(rs, ns, old(fds[..nfds]), nfds, seen, locks, sems)
  {
    hide Distinct, Rename, List.Valid, List.Items, Shows, Tried;
    ghost var was := fds[..nfds];
    for i := 0 to nfds
      invariant Shows(rs, ns) && Tried(rs, ns, was, i, seen, locks, sems)
      invariant forall j :: 0 <= j < nfds ==> fds[j] == if j < i then Rename(was[j], ns, seen(j)) else was[j]
    {
      var e := RenameNext(fds[i], binds, rs, ns, ports, was, i, seen(i), seen, locks, sems);
      fds[i] := e;
    }
    assert fds[..nfds] == Renamed(was, ns, seen);
  }

  /** `dsu_pre_poll`: renaming in place, then compression. */
  method PrePoll(fds: array<PollFd>, nfds: nat, binds: List<Record>, seen: nat -> Seen,
                 ghost rs: seq<Record>, ghost ns: seq<Name>, ghost ports: set<Port>)
    returns (n: nat)
    requires nfds < fds.Length
    requires binds.Valid() && rs == binds.Items() && Distinct(rs) && Shows(rs, ns)
    requires forall i :: 0 <= i < |rs| ==> rs[i].shared in ports
    modifies fds, rs`locked, ports
    ensures Shows(rs, ns)
    ensures n <= nfds && Slots(fds[..n]) == Used(Slots(Renamed(old(fds[..nfds]), ns, seen)))
    ensures forall b :: 0 <= b < |ns| ==>
      (rs[b].locked <==> old(rs[b].locked) || Took(old(fds[..nfds]), nfds, ns, seen, b))
    ensures DifferentPorts(rs) ==> forall b :: 0 <= b < |ns| ==>
      rs[b].shared.fdSem == SemAfter(old(fds[..nfds]), nfds, ns, seen, b, old(rs[b].shared.fdSem))
  {
    hide Used, Distinct, Rename, Gets, List.Valid, List.Items, DifferentPorts, FirstIndex;
    ghost var locks := seq(|rs|, b requires 0 <= b < |rs| reads rs => rs[b].locked);
    ghost var sems := seq(|rs|, b requires 0 <= b < |rs| reads rs, set r | r in rs :: r.shared => rs[b].shared.fdSem);
    RenameAll(fds, nfds, binds, seen, rs, ns, ports, locks, sems);
    n := Compress(fds, nfds);
  }

  // ---------------------------------------------------------------- mapping back

  /** First position from `from` on that holds `x`, or the length. */
  function Find(u: seq<int>, x: int, from: nat): (p: nat)
    ensures p <= |u| && (p < |u| ==> from <= p && u[p] == x)
    ensures forall j :: from <= j < p ==> u[j] != x
    decreases |u| - from
  {
    if from >= |u| then |u| else if u[from] == x then from else Find(u, x, from + 1)
  }

  /** The walk over both arrays: the lead of the second index, the entries marked so far, and
      whether the walk is still inside the user's array. */
  datatype Back = Back(o: nat, marked: set<nat>, inside: bool)

  function BackStep(u: seq<int>, x: int, i: nat, b: Back): Back {
    if !b.inside then b
    else
      var p := Find(u, x, i + b.o);
      if p == |u| then b.(inside := false) else Back(p - i, b.marked + {p}, true)
  }

  /** `origin[i]` is what entry `i` of the copy is mapped back to. */
  function WalkBack(u: seq<int>, origin: seq<int>, ready: seq<bool>, n: nat): Back
    requires n <= |origin| == |ready|
  {
    if n == 0 then Back(0, {}, true)
    else
      var b := WalkBack(u, origin, ready, n - 1);
      if ready[n - 1] then BackStep(u, origin[n - 1], n - 1, b) else b
  }

  /** Ready entries among the first `n`, as positions in the user's array. */
  function ReadySources(src: seq<nat>, ready: seq<bool>, n: nat): set<nat>
    requires n <= |src| && n <= |ready|
  {
    if n == 0 then {} else ReadySources(src, ready, n - 1) + if ready[n - 1] then {src[n - 1]} else {}
  }

  ghost predicate Increasing(src: seq<nat>) {
    forall i, j :: 0 <= i < j < |src| ==> src[i] < src[j]
  }

  /** Descriptors are listed once; -1 stands for an entry that is not in use. */
  ghost predicate ListedOnce(u: seq<int>) {
    forall i, j :: 0 <= i < j < |u| ==> u[i] == u[j] ==> u[i] == -1
  }

  /** The copy's first entries stem from the user's, in order; the others are internal. */
  ghost predicate Stems(u: seq<int>, origin: seq<int>, src: seq<nat>) {
    && ListedOnce(u) && Increasing(src) && |src| <= |origin|
    && (forall i :: 0 <= i < |src| ==> src[i] < |u| && origin[i] == u[src[i]] != -1)
    && (forall i :: |src| <= i < |origin| ==> origin[i] !in u)
  }

  ghost predicate InternalReady(ready: seq<bool>, from: nat, n: nat)
    requires n <= |ready|
  {
    exists i :: from <= i < n && ready[i]
  }

  lemma {:induction false} Lead(src: seq<nat>, i: nat, j: nat)
    requires Increasing(src) && i <= j < |src|
    ensures src[i] - i <= src[j] - j
    decreases j - i
  {
    if i < j { Lead(src, i, j - 1); }
  }

  lemma {:induction false} WalkBackIs(u: seq<int>, origin: seq<int>, ready: seq<bool>, src: seq<nat>, n: nat)
    requires Stems(u, origin, src) && n <= |origin| == |ready|
    ensures var b := WalkBack(u, origin, ready, n);
            && (b.inside <==> !InternalReady(ready, |src|, n))
            && b.marked == ReadySources(src, ready, if n < |src| then n else |src|)
            && (n < |src| ==> b.o + n <= src[n])
  {
    if n == 0 {
    } else {
      WalkBackIs(u, origin, ready, src, n - 1);
      var b := WalkBack(u, origin, ready, n - 1);
      if n - 1 < |src| {
        var p := Find(u, origin[n - 1], n - 1 + b.o);
        assert p == src[n - 1];
        if n < |src| { Lead(src, n - 1, n); }
      } else if ready[n - 1] {
        assert Find(u, origin[n - 1], n - 1 + b.o) == |u|;
        assert InternalReady(ready, |src|, n);
      }
    }
  }

  function Descriptors(s: seq<PollFd>): (r: seq<int>)
    ensures |r| == |s| && forall i :: 0 <= i < |s| ==> r[i] == s[i].fd
  {
    seq(|s|, i requires 0 <= i < |s| => s[i].fd)
  }

  function Origins(s: seq<PollFd>, ns: seq<Name>): (r: seq<int>)
    ensures |r| == |s| && forall i :: 0 <= i < |s| ==> r[i] == OriginalOf(FdsOf(ns), ShadowsOf(ns), s[i].fd)
  {
    seq(|s|, i requires 0 <= i < |s| => OriginalOf(FdsOf(ns), ShadowsOf(ns), s[i].fd))
  }

  function Readies(s: seq<PollFd>): (r: seq<bool>)
    ensures |r| == |s| && forall i :: 0 <= i < |s| ==> r[i] == (s[i].revents != 0)
  {
    seq(|s|, i requires 0 <= i < |s| => s[i].revents != 0)
  }

  /** The inner loop of `dsu_set_revents`: without the test of the length, which the source does
      not have, it reads on past the array. */
  method Seek(fds: array<PollFd>, fd: int, from: nat) returns (p: nat)
    ensures p == Find(Descriptors(fds[..]), fd, from)
  {
    p := from;
    while p < fds.Length && fds[p].fd != fd
      invariant from <= p && (from <= fds.Length ==> p <= fds.Length)
      invariant Find(Descriptors(fds[..]), fd, from) == Find(Descriptors(fds[..]), fd, p)
    {
      p := p + 1;
    }
    if p >= fds.Length { p := fds.Length; }
  }

  method Original(binds: List<Record>, fd: int, ghost ns: seq<Name>) returns (d: int)
    requires binds.Valid() && Shows(binds.Items(), ns)
    ensures d == OriginalOf(FdsOf(ns), ShadowsOf(ns), fd)
  {
    ghost var rs := binds.Items();
    assert Fds(rs) == FdsOf(ns) && Shadows(rs) == ShadowsOf(ns);
    d := OriginalFd(binds, fd);
  }

  /** `dsu_set_revents`; `inside` tells whether the walk stayed in the user's array. */
  method SetRevents(fds: array<PollFd>, shadow: array<PollFd>, n: nat, binds: List<Record>, ghost ns: seq<Name>)
    returns (inside: bool)
    requires fds != shadow && n <= shadow.Length && binds.Valid() && Shows(binds.Items(), ns)
    modifies fds
    ensures var b := WalkBack(old(Descriptors(fds[..])), Origins(shadow[..n], ns), Readies(shadow[..n]), n);
            && inside == b.inside
            && forall j :: 0 <= j < fds.Length ==>
                 fds[j] == if j in b.marked then old(fds[j]).(revents := 1) else old(fds[j])
  {
    hide Shows, Origins, Readies;
    hide Find, OriginalOf, List.Valid, ItemsOf, Linked, Distinct, FirstIndex;
    ghost var u, was := Descriptors(fds[..]), fds[..];
    ghost var origins, readies := Origins(shadow[..n], ns), Readies(shadow[..n]);
    ghost var b := WalkBack(u, origins, readies, 0);
    var o := 0;
    for i := 0 to n
      invariant b == WalkBack(u, origins, readies, i) && b.inside && o == b.o
      invariant forall j :: 0 <= j < fds.Length ==> fds[j] == if j in b.marked then was[j].(revents := 1) else was[j]
    {
      if shadow[i].revents != 0 {
        var fd := Original(binds, shadow[i].fd, ns);
        assert Descriptors(fds[..]) == u;
        var p := Seek(fds, fd, i + o);
        if p == fds.Length {
          WalkStaysOut(u, origins, readies, i + 1, n);
          return false;
        }
        fds[p] := fds[p].(revents := 1);
        o := p - i;
      }
      b := WalkBack(u, origins, readies, i + 1);
    }
    return true;
  }

  lemma {:induction false} WalkStaysOut(u: seq<int>, origin: seq<int>, ready: seq<bool>, i: nat, n: nat)
    requires i <= n <= |origin| == |ready| && !WalkBack(u, origin, ready, i).inside
    ensures WalkBack(u, origin, ready, n) == WalkBack(u, origin, ready, i)
  {
    if i < n { WalkStaysOut(u, origin, ready, i, n - 1); }
  }

  lemma {:induction false} SourcesAre(s: seq<Slot>)
    ensures Increasing(Sources(s))
    ensures forall i :: 0 <= i < |Used(s)| ==>
      Sources(s)[i] < |s| && Used(s)[i] == s[Sources(s)[i]] && Used(s)[i].fd != -1
    ensures forall j :: 0 <= j < |s| && s[j].fd != -1 ==> j in Sources(s)
  {
    SourcesIncrease(s);
    SourcesCover(s);
  }

  lemma {:induction false} SourcesIncrease(s: seq<Slot>)
    ensures Increasing(Sources(s))
    ensures forall i :: 0 <= i < |Used(s)| ==>
      Sources(s)[i] < |s| && Used(s)[i] == s[Sources(s)[i]] && Used(s)[i].fd != -1
  {
    if s != [] {
      var n := |s| - 1;
      SourcesIncrease(s[..n]);
      forall i | 0 <= i < |Used(s)| ensures Sources(s)[i] < |s| && Used(s)[i] == s[Sources(s)[i]] && Used(s)[i].fd != -1 {
        if i < |Used(s[..n])| { assert s[..n][Sources(s[..n])[i]] == s[Sources(s)[i]]; }
      }
    }
  }

  lemma {:induction false} SourcesCover(s: seq<Slot>)
    ensures forall j :: 0 <= j < |s| && s[j].fd != -1 ==> j in Sources(s)
  {
    if s != [] {
      var n := |s| - 1;
      SourcesCover(s[..n]);
      forall j | 0 <= j < |s| && s[j].fd != -1 ensures j in Sources(s) {
        assert j < n ==> s[..n][j] == s[j];
      }
    }
  }

  /** The caller lists no descriptor twice and none that the library keeps to itself; shadow
      descriptors are different. */
  ghost predicate Clean(user: seq<PollFd>, ns: seq<Name>) {
    && ListedOnce(Descriptors(user)) && Distinct(ShadowsOf(ns)) && -1 !in FdsOf(ns)
    && forall j :: 0 <= j < |user| ==> user[j].fd in FdsOf(ns) || user[j].fd !in ShadowsOf(ns)
  }

  /** Renaming back undoes renaming, for every entry that is still in use. */
  lemma OriginOfRenamed(e: PollFd, ns: seq<Name>, seen: Seen)
    requires Distinct(ShadowsOf(ns)) && -1 !in FdsOf(ns) && (e.fd in FdsOf(ns) || e.fd !in ShadowsOf(ns))
    requires Rename(e, ns, seen).fd != -1
    ensures OriginalOf(FdsOf(ns), ShadowsOf(ns), Rename(e, ns, seen).fd) == e.fd != -1
  {
    RenamingRoundTrip(FdsOf(ns), ShadowsOf(ns), e.fd);
  }

  ghost predicate InternalFrom(shadow: seq<PollFd>, m: nat, user: seq<PollFd>, ns: seq<Name>) {
    forall i :: m <= i < |shadow| ==> OriginalOf(FdsOf(ns), ShadowsOf(ns), shadow[i].fd) !in Descriptors(user)
  }

  /** The copy stems from the user's array, entry by entry. */
  lemma {:induction false} CopyStems(user: seq<PollFd>, ns: seq<Name>, seen: nat -> Seen, shadow: seq<PollFd>, m: nat)
    requires Clean(user, ns) && m <= |shadow|
    requires Slots(shadow[..m]) == Used(Slots(Renamed(user, ns, seen)))
    requires InternalFrom(shadow, m, user, ns)
    ensures |Sources(Slots(Renamed(user, ns, seen)))| == m
    ensures Stems(Descriptors(user), Origins(shadow, ns), Sources(Slots(Renamed(user, ns, seen))))
  {
    var s := Slots(Renamed(user, ns, seen));
    var src := Sources(s);
    SourcesAre(s);
    hide Rename, OriginalOf, Used, Sources, Distinct;
    forall i | 0 <= i < m ensures src[i] < |user| && Origins(shadow, ns)[i] == user[src[i]].fd != -1 {
      var j := src[i];
      assert Slots(shadow[..m])[i] == s[j];
      assert shadow[i].fd == Rename(user[j], ns, seen(j)).fd;
      OriginOfRenamed(user[j], ns, seen(j));
    }
  }

  // ---------------------------------------------------------------- the call

  /** What the kernel says about an entry at this instant; it passes over negative descriptors. */
  function Said(answer: (int, int) -> int, fd: int, events: int): int { if fd < 0 then 0 else answer(fd, events) }

  function CountReady(ready: seq<bool>, n: nat): nat
    requires n <= |ready|
  {
    if n == 0 then 0 else CountReady(ready, n - 1) + if ready[n - 1] then 1 else 0
  }

  /** What a caller should find marked: the entries whose descriptor, or the shadow descriptor that
      was admitted for it, is ready. */
  ghost function ShouldMark(user: seq<PollFd>, ns: seq<Name>, seen: nat -> Seen, answer: (int, int) -> int): set<nat> {
    set j | 0 <= j < |user| && Said(answer, ShownAs(user[j], ns, seen(j)), user[j].events) != 0
  }

  lemma {:induction false} InReadySources(src: seq<nat>, ready: seq<bool>, n: nat, i: nat)
    requires i < n <= |src| && n <= |ready| && ready[i]
    ensures src[i] in ReadySources(src, ready, n)
  {
    if i < n - 1 { InReadySources(src, ready, n - 1, i); }
  }

  lemma {:induction false} OfReadySources(src: seq<nat>, ready: seq<bool>, n: nat, j: nat) returns (i: nat)
    requires n <= |src| && n <= |ready| && j in ReadySources(src, ready, n)
    ensures i < n && src[i] == j && ready[i]
  {
    if ready[n - 1] && src[n - 1] == j { i := n - 1; } else { i := OfReadySources(src, ready, n - 1, j); }
  }

  lemma {:induction false} NotYetReady(src: seq<nat>, ready: seq<bool>, n: nat, j: nat)
    requires Increasing(src) && n <= j < |src| && n <= |ready|
    ensures src[j] !in ReadySources(src, ready, n)
  {
    if src[j] in ReadySources(src, ready, n) {
      var i := OfReadySources(src, ready, n, src[j]);
    }
  }

  lemma {:induction false} ReadySourcesSize(src: seq<nat>, ready: seq<bool>, n: nat)
    requires Increasing(src) && n <= |src| && n <= |ready|
    ensures |ReadySources(src, ready, n)| == CountReady(ready, n)
  {
    hide Increasing;
    if n > 0 {
      ReadySourcesSize(src, ready, n - 1);
      NotYetReady(src, ready, n - 1, n - 1);
    }
  }

  lemma {:induction false} CountUpTo(ready: seq<bool>, m: nat, n: nat)
    requires m <= n <= |ready| && !InternalReady(ready, m, n)
    ensures CountReady(ready, n) == CountReady(ready, m)
  {
    if m < n { CountUpTo(ready, m, n - 1); }
  }

  lemma {:induction false} ReadyAreMarked(user: seq<PollFd>, ns: seq<Name>, seen: nat -> Seen, answer: (int, int) -> int,
                                          shadow: seq<PollFd>, m: nat)
    requires m <= |shadow| && Slots(shadow[..m]) == Used(Slots(Renamed(user, ns, seen)))
    requires forall i :: 0 <= i < |shadow| ==> shadow[i].revents == Said(answer, shadow[i].fd, shadow[i].events)
    ensures var src := Sources(Slots(Renamed(user, ns, seen)));
            |src| == m && ReadySources(src, Readies(shadow), m) == ShouldMark(user, ns, seen, answer)
  {
    var s, ready := Slots(Renamed(user, ns, seen)), Readies(shadow);
    var src := Sources(s);
    SourcesAre(s);
    forall j | 0 <= j < |user| ensures Rename(user[j], ns, seen(j)).fd == ShownAs(user[j], ns, seen(j)) {
      RenameIs(user[j], ns, seen(j));
    }
    hide Rename, Used, Sources, ShownAs;
    forall i | 0 <= i < m ensures src[i] < |user| && (ready[i] <==> src[i] in ShouldMark(user, ns, seen, answer)) {
      assert Slots(shadow[..m])[i] == s[src[i]];
    }
    forall j | j in ShouldMark(user, ns, seen, answer) ensures j in ReadySources(src, ready, m) {
      assert s[j].fd != -1;
      var i :| 0 <= i < m && src[i] == j;
      InReadySources(src, ready, m, i);
    }
    forall j: nat | j in ReadySources(src, ready, m) ensures j in ShouldMark(user, ns, seen, answer) {
      var i := OfReadySources(src, ready, m, j);
    }
  }

  /** `poll` refines a plain `poll` on the caller's own descriptors, as far as which entries are
      marked: exactly those that should be, whatever internal entries are ready; the walk leaves
      the caller's array exactly when an internal entry is ready; and otherwise the kernel's count
      is the number of marked entries. */
  lemma {:induction false} MappedBack(user: seq<PollFd>, ns: seq<Name>, seen: nat -> Seen, answer: (int, int) -> int, shadow: seq<PollFd>, m: nat)
    requires Clean(user, ns) && m <= |shadow|
    requires Slots(shadow[..m]) == Used(Slots(Renamed(user, ns, seen)))
    requires InternalFrom(shadow, m, user, ns)
    requires forall i :: 0 <= i < |shadow| ==> shadow[i].revents == Said(answer, shadow[i].fd, shadow[i].events)
    ensures var b := WalkBack(Descriptors(user), Origins(shadow, ns), Readies(shadow), |shadow|);
            && (b.inside <==> !InternalReady(Readies(shadow), m, |shadow|))
            && b.marked == ShouldMark(user, ns, seen, answer)
            && (b.inside ==> CountReady(Readies(shadow), |shadow|) == |b.marked|)
  {
    var src, ready := Sources(Slots(Renamed(user, ns, seen))), Readies(shadow);
    CopyStems(user, ns, seen, shadow, m);
    ReadyAreMarked(user, ns, seen, answer, shadow, m);
    hide Used, Sources, Clean, InternalFrom, ShouldMark, Renamed, Said;
    WalkBackIs(Descriptors(user), Origins(shadow, ns), ready, src, |shadow|);
    ReadySourcesSize(src, ready, m);
    if !InternalReady(ready, m, |shadow|) { CountUpTo(ready, m, |shadow|); }
  }

  // ---------------------------------------------------------------- internal entries

  /** `FD_SETSIZE` and `POLLIN`. */
  const FD_SETSIZE := 1024
  const POLLIN := 1

  /** `dsu_sniff_conn_poll`: the listener of a monitoring record, then its connections, as far as there
      is room. */
  method SniffConn(r: Record, shadow: array<PollFd>, n: nat) returns (n': nat)
    requires r.comfds.Valid() && n <= shadow.Length
    modifies shadow
    ensures var cs, m := r.comfds.Items(), if r.monitoring then 1 else 0;
            && n' == (if n + m + |cs| <= shadow.Length then n + m + |cs| else shadow.Length)
            && shadow[..n] == old(shadow[..n])
            && (r.monitoring && n < n' ==> shadow[n] == PollFd(r.comfd, POLLIN, 0))
            && forall k :: 0 <= k < |cs| && n + m + k < n' ==> shadow[n + m + k] == PollFd(cs[k], POLLIN, 0)
  {
    hide Linked, ItemsOf, List.Valid, List.Items;
    n' := n;
    ghost var m := if r.monitoring then 1 else 0;
    if r.monitoring && n' < shadow.Length {
      shadow[n'] := PollFd(r.comfd, POLLIN, 0);
      n' := n' + 1;
    }
    var cs := r.comfds.Walk();
    for i := 0 to |cs|
      invariant n' == (if n + m + i <= shadow.Length then n + m + i else shadow.Length)
      invariant shadow[..n] == old(shadow[..n]) && (r.monitoring && n < n' ==> shadow[n] == PollFd(r.comfd, POLLIN, 0))
      invariant forall k :: 0 <= k < i && n + m + k < n' ==> shadow[n + m + k] == PollFd(cs[k], POLLIN, 0)
    {
      if n' < shadow.Length {
        shadow[n'] := PollFd(cs[i], POLLIN, 0);
        n' := n' + 1;
      }
    }
  }

  /** How many descriptors the first `n` records watch, and all of them in record order. */
  function Offset(dss: seq<seq<int>>, n: nat): nat
    requires n <= |dss|
  {
    if n == 0 then 0 else Offset(dss, n - 1) + |dss[n - 1]|
  }

  function Flat(dss: seq<seq<int>>, n: nat): (ds: seq<int>)
    requires n <= |dss|
    ensures |ds| == Offset(dss, n)
  {
    if n == 0 then [] else Flat(dss, n - 1) + dss[n - 1]
  }

  lemma {:induction false} FlatAt(dss: seq<seq<int>>, n: nat, i: nat, k: nat)
    requires i < n <= |dss| && k < |dss[i]|
    ensures Offset(dss, i) + k < Offset(dss, n) && Flat(dss, n)[Offset(dss, i) + k] == dss[i][k]
  {
    if i < n - 1 { FlatAt(dss, n - 1, i, k); }
  }

  lemma {:induction false} FlatFrom(dss: seq<seq<int>>, n: nat, d: int)
    requires n <= |dss| && d in Flat(dss, n)
    ensures exists k :: 0 <= k < n && d in dss[k]
  {
    if d !in dss[n - 1] { FlatFrom(dss, n - 1, d); }
  }

  /** The copy, with the internal entries of the first `n` records as far as there is room. */
  function FillAll(s: seq<PollFd>, dss: seq<seq<int>>, n: nat, room: nat): (r: seq<PollFd>)
    requires n <= |dss| && |s| <= room
    ensures |r| == if |s| + Offset(dss, n) <= room then |s| + Offset(dss, n) else room
    ensures forall i :: 0 <= i < |s| ==> r[i] == s[i]
    ensures forall i :: |s| <= i < |r| ==> r[i] == PollFd(Flat(dss, n)[i - |s|], POLLIN, 0)
  {
    var more := if |s| + Offset(dss, n) <= room then |s| + Offset(dss, n) else room;
    seq(more, i requires 0 <= i < more => if i < |s| then s[i] else PollFd(Flat(dss, n)[i - |s|], POLLIN, 0))
  }

  /** What the records watch: a monitoring one its listener and then its connections. */
  ghost predicate Watches(rs: seq<Record>, dss: seq<seq<int>>)
    reads rs, set r | r in rs :: r.comfds
  {
    |dss| == |rs| && forall i {:trigger rs[i]} :: 0 <= i < |rs| ==>
      rs[i].comfds.Valid() && dss[i] == (if rs[i].monitoring then [rs[i].comfd] else []) + rs[i].comfds.Items()
  }

  /** The entries from position `from` on are those of the records, in record order, for `POLLIN`;
      when there are more than `room`, the last ones are missing. */
  ghost predicate InPlace(shown: seq<PollFd>, from: nat, dss: seq<seq<int>>, room: nat) {
    && |shown| == (if from + Offset(dss, |dss|) <= room then from + Offset(dss, |dss|) else room)
    && forall i, k, j :: 0 <= i < |dss| && 0 <= k < |dss[i]| && j == from + Offset(dss, i) + k && j < |shown| ==>
         shown[j].fd == dss[i][k] && shown[j].events == POLLIN
  }

  lemma FilledInPlace(s: seq<PollFd>, dss: seq<seq<int>>, room: nat)
    requires |s| <= room
    ensures InPlace(FillAll(s, dss, |dss|, room), |s|, dss, room)
  {
    var r := FillAll(s, dss, |dss|, room);
    forall i, k, j | 0 <= i < |dss| && 0 <= k < |dss[i]| && j == |s| + Offset(dss, i) + k && j < |r|
      ensures r[j] == PollFd(dss[i][k], POLLIN, 0)
    {
      FlatAt(dss, |dss|, i, k);
    }
  }

  /** One more record. */
  lemma FillStep(s: seq<PollFd>, dss: seq<seq<int>>, n: nat, room: nat, now: seq<PollFd>)
    requires n < |dss| && |s| <= room
    requires var was, ds := FillAll(s, dss, n, room), dss[n];
             && |now| == (if |was| + |ds| <= room then |was| + |ds| else room)
             && now[..|was|] == was
             && forall k :: 0 <= k < |ds| && |was| + k < |now| ==> now[|was| + k] == PollFd(ds[k], POLLIN, 0)
    ensures now == FillAll(s, dss, n + 1, room)
  {
    var was, next := FillAll(s, dss, n, room), FillAll(s, dss, n + 1, room);
    assert |now| == |next|;
    forall i | 0 <= i < |now| ensures now[i] == next[i] {
      if i < |was| { assert now[i] == now[..|was|][i]; }
    }
  }

  method SniffAll(rs: seq<Record>, shadow: array<PollFd>, n: nat, ghost dss: seq<seq<int>>) returns (n': nat)
    requires n <= shadow.Length && Watches(rs, dss)
    modifies shadow
    ensures n <= n' <= shadow.Length && shadow[..n] == old(shadow[..n]) && InPlace(shadow[..n'], n, dss, shadow.Length)
    ensures shadow[..n'] == FillAll(old(shadow[..n]), dss, |dss|, shadow.Length)
  {
    hide Distinct, Linked;
    n' := n;
    ghost var s := shadow[..n];
    for i := 0 to |rs|
      invariant n <= n' <= shadow.Length && shadow[..n'] == FillAll(s, dss, i, shadow.Length)
    {
      ghost var was := shadow[..n'];
      n' := SniffConn(rs[i], shadow, n');
      FillStep(s, dss, i, shadow.Length, shadow[..n']);
    }
    FilledInPlace(s, dss, shadow.Length);
    assert shadow[..n] == shadow[..n'][..n];
  }

  // ---------------------------------------------------------------- the whole call

  datatype Kernel = Failure | Answer(answer: (int, int) -> int)

  function Answered(s: seq<PollFd>, answer: (int, int) -> int): (r: seq<PollFd>)
    ensures |r| == |s| && forall i :: 0 <= i < |s| ==> r[i] == s[i].(revents := Said(answer, s[i].fd, s[i].events))
  {
    seq(|s|, i requires 0 <= i < |s| => s[i].(revents := Said(answer, s[i].fd, s[i].events)))
  }

  /** The kernel writes every entry's result and counts those that are not 0. */
  method AskKernel(shadow: array<PollFd>, n: nat, answer: (int, int) -> int) returns (count: nat)
    requires n <= shadow.Length
    modifies shadow
    ensures shadow[..n] == Answered(old(shadow[..n]), answer)
    ensures count == CountReady(Readies(shadow[..n]), n)
  {
    ghost var s := shadow[..n];
    ghost var ready := Readies(Answered(s, answer));
    count := 0;
    for i := 0 to n
      invariant forall j :: 0 <= j < n ==> shadow[j] == if j < i then Answered(s, answer)[j] else s[j]
      invariant count == CountReady(ready, i)
    {
      var e := shadow[i];
      shadow[i] := e.(revents := Said(answer, e.fd, e.events));
      if shadow[i].revents != 0 { count := count + 1; }
    }
    assert shadow[..n] == Answered(s, answer);
  }

  /** `dsu_unlock` for every record: whoever holds the lock posts it. */
  method UnlockAll(rs: seq<Record>, ghost ns: seq<Name>, ghost ports: set<Port>)
    requires Shows(rs, ns) && forall i :: 0 <= i < |rs| ==> rs[i].shared in ports
    requires forall i, j :: 0 <= i < j < |rs| ==> rs[i] != rs[j]
    modifies rs`locked, ports`fdSem
    ensures Shows(rs, ns) && forall i :: 0 <= i < |rs| ==> !rs[i].locked
    ensures DifferentPorts(rs) ==> forall i :: 0 <= i < |rs| ==>
      rs[i].shared.fdSem == old(rs[i].shared.fdSem) + if old(rs[i].locked) then 1 else 0
  {
    for i := 0 to |rs|
      invariant forall j :: 0 <= j < i ==> !rs[j].locked
      invariant forall j :: i <= j < |rs| ==> rs[j].locked == old(rs[j].locked)
      invariant DifferentPorts(rs) ==> forall j :: 0 <= j < |rs| ==>
        rs[j].shared.fdSem == old(rs[j].shared.fdSem) + if j < i && old(rs[j].locked) then 1 else 0
    {
      Core.UnlockFd(rs[i]);
    }
  }

  /** The caller knows no internal descriptor, and none is also a shadow descriptor. */
  ghost predicate Private(dss: seq<seq<int>>, user: seq<PollFd>, ns: seq<Name>) {
    forall i, d :: 0 <= i < |dss| && d in dss[i] ==> d !in Descriptors(user) && d !in ShadowsOf(ns)
  }

  lemma KeptPrivate(dss: seq<seq<int>>, user: seq<PollFd>, ns: seq<Name>, k: nat, d: int)
    requires Private(dss, user, ns) && k < |dss| && d in dss[k]
    ensures OriginalOf(FdsOf(ns), ShadowsOf(ns), d) == d && d !in Descriptors(user)
  {
    assert d !in ShadowsOf(ns);
    FirstIndexIs(ShadowsOf(ns), d, |ns|);
  }

  lemma {:induction false} PrivateIsInternal(copy: seq<PollFd>, dss: seq<seq<int>>, user: seq<PollFd>, ns: seq<Name>, room: nat)
    requires Private(dss, user, ns) && |copy| <= room
    ensures InternalFrom(FillAll(copy, dss, |dss|, room), |copy|, user, ns)
  {
    var all := FillAll(copy, dss, |dss|, room);
    forall i | |copy| <= i < |all| ensures OriginalOf(FdsOf(ns), ShadowsOf(ns), all[i].fd) !in Descriptors(user) {
      FlatFrom(dss, |dss|, all[i].fd);
      var k :| 0 <= k < |dss| && all[i].fd in dss[k];
      KeptPrivate(dss, user, ns, k, all[i].fd);
    }
  }

  /** What the kernel is shown and answers: the copy, the internal entries, and the results. */
  ghost function Shown(copy: seq<PollFd>, dss: seq<seq<int>>, answer: (int, int) -> int): seq<PollFd>
    requires |copy| <= FD_SETSIZE
  {
    Answered(FillAll(copy, dss, |dss|, FD_SETSIZE), answer)
  }

  lemma AnsweredInPlace(all: seq<PollFd>, from: nat, dss: seq<seq<int>>, room: nat, answer: (int, int) -> int)
    requires InPlace(all, from, dss, room)
    ensures InPlace(Answered(all, answer), from, dss, room)
  {
  }

  lemma ShownInPlace(copy: seq<PollFd>, dss: seq<seq<int>>, answer: (int, int) -> int)
    requires |copy| <= FD_SETSIZE
    ensures InPlace(Shown(copy, dss, answer), |copy|, dss, FD_SETSIZE)
  {
    hide FillAll, InPlace;
    FilledInPlace(copy, dss, FD_SETSIZE);
    AnsweredInPlace(FillAll(copy, dss, |dss|, FD_SETSIZE), |copy|, dss, FD_SETSIZE, answer);
  }

  ghost predicate InternalAnswered(copy: seq<PollFd>, dss: seq<seq<int>>, answer: (int, int) -> int)
    requires |copy| <= FD_SETSIZE
  {
    InternalReady(Readies(Shown(copy, dss, answer)), |copy|, |Shown(copy, dss, answer)|)
  }

  lemma {:induction false} CallMapsBack(user: seq<PollFd>, ns: seq<Name>, seen: nat -> Seen, answer: (int, int) -> int,
                                        copy: seq<PollFd>, dss: seq<seq<int>>)
    requires Clean(user, ns) && Private(dss, user, ns) && |copy| <= FD_SETSIZE
    requires Slots(copy) == Used(Slots(Renamed(user, ns, seen)))
    ensures var sh := Shown(copy, dss, answer);
            var b := WalkBack(Descriptors(user), Origins(sh, ns), Readies(sh), |sh|);
            && (b.inside <==> !InternalAnswered(copy, dss, answer))
            && b.marked == ShouldMark(user, ns, seen, answer)
            && (b.inside ==> CountReady(Readies(sh), |sh|) == |b.marked|)
  {
    var all, sh, m := FillAll(copy, dss, |dss|, FD_SETSIZE), Shown(copy, dss, answer), |copy|;
    PrivateIsInternal(copy, dss, user, ns, FD_SETSIZE);
    hide Clean, Private, Used, Renamed, OriginalOf, FillAll;
    assert Slots(sh[..m]) == Slots(copy) by {
      assert forall i :: 0 <= i < m ==> sh[i].fd == copy[i].fd && sh[i].events == copy[i].events;
    }
    MappedBack(user, ns, seen, answer, sh, m);
  }

  /** What `ppoll` leaves in the user's array. */
  ghost function MarkAll(user: seq<PollFd>, marked: set<nat>): (r: seq<PollFd>)
    ensures |r| == |user|
    ensures forall j :: 0 <= j < |user| ==> r[j] == if j in marked then user[j].(revents := 1) else user[j]
  {
    seq(|user|, j requires 0 <= j < |user| => if j in marked then user[j].(revents := 1) else user[j])
  }

  /** The user's entries are renamed in a copy. */
  method RenamedCopy(user: array<PollFd>, binds: List<Record>, seen: nat -> Seen,
                     ghost rs: seq<Record>, ghost ns: seq<Name>, ghost dss: seq<seq<int>>, ghost ports: set<Port>)
    returns (shadow: array<PollFd>, n: nat)
    requires user.Length < FD_SETSIZE
    requires binds.Valid() && rs == binds.Items() && Distinct(rs) && Shows(rs, ns) && Watches(rs, dss)
    requires forall i :: 0 <= i < |rs| ==> rs[i].shared in ports
    modifies rs`locked, ports
    ensures fresh(shadow) && shadow.Length == FD_SETSIZE && n <= user.Length && Shows(rs, ns) && Watches(rs, dss)
    ensures Slots(shadow[..n]) == Used(Slots(Renamed(user[..], ns, seen)))
    ensures forall b :: 0 <= b < |ns| ==> (rs[b].locked <==> old(rs[b].locked) || Took(user[..], user.Length, ns, seen, b))
    ensures DifferentPorts(rs) ==> forall b :: 0 <= b < |ns| ==>
      rs[b].shared.fdSem == SemAfter(user[..], user.Length, ns, seen, b, old(rs[b].shared.fdSem))
  {
    hide Used, Renamed, Distinct, Took, SemAfter, DifferentPorts, List.Valid, Linked, List.Items, Slots;
    shadow := new PollFd[FD_SETSIZE](i requires 0 <= i reads user => if i < user.Length then user[i] else PollFd(0, 0, 0));
    assert shadow[..user.Length] == user[..];
    n := PrePoll(shadow, user.Length, binds, seen, rs, ns, ports);
  }

  /** Everything up to the kernel's answer. */
  method AskAboutCopy(user: array<PollFd>, binds: List<Record>, seen: nat -> Seen, kernel: Kernel,
                      ghost rs: seq<Record>, ghost ns: seq<Name>, ghost dss: seq<seq<int>>, ghost ports: set<Port>)
    returns (shadow: array<PollFd>, n: nat, result: int, ghost copy: seq<PollFd>)
    requires user.Length < FD_SETSIZE
    requires binds.Valid() && rs == binds.Items() && Distinct(rs) && Shows(rs, ns) && Watches(rs, dss)
    requires forall i :: 0 <= i < |rs| ==> rs[i].shared in ports
    modifies rs`locked, ports
    ensures fresh(shadow) && n <= shadow.Length && Shows(rs, ns)
    ensures |copy| <= user.Length && Slots(copy) == Used(Slots(Renamed(user[..], ns, seen)))
    ensures kernel.Failure? ==> result == -1
    ensures kernel.Answer? ==>
      shadow[..n] == Shown(copy, dss, kernel.answer) && result == CountReady(Readies(shadow[..n]), n)
    ensures forall b :: 0 <= b < |ns| ==> (rs[b].locked <==> old(rs[b].locked) || Took(user[..], user.Length, ns, seen, b))
    ensures DifferentPorts(rs) ==> forall b :: 0 <= b < |ns| ==>
      rs[b].shared.fdSem == SemAfter(user[..], user.Length, ns, seen, b, old(rs[b].shared.fdSem))
  {
    hide Used, Renamed, Distinct, FillAll, Took, SemAfter, DifferentPorts, InPlace, List.Valid, Linked, List.Items, Slots;
    shadow, n := RenamedCopy(user, binds, seen, rs, ns, dss, ports);
    copy := shadow[..n];
    var all := binds.Walk();
    n := SniffAll(all, shadow, n, dss);
    result := -1;
    if kernel.Answer? {
      result := AskKernel(shadow, n, kernel.answer);
    }
  }

  /** `ppoll` from the renaming on. `waited`: the kernel reported nothing; then the call returns at
      once, with the user's array and every lock as they are. Otherwise exactly the entries that
      should be are marked with 1, every lock is given back, and as long as no internal entry was
      ready, the walk stays inside the array and the result is the number of marked entries. */
  method Ppoll(user: array<PollFd>, binds: List<Record>, seen: nat -> Seen, kernel: Kernel,
               ghost rs: seq<Record>, ghost ns: seq<Name>, ghost dss: seq<seq<int>>, ghost ports: set<Port>)
    returns (result: int, waited: bool, inside: bool, ghost copy: seq<PollFd>)
    requires user.Length < FD_SETSIZE
    requires binds.Valid() && rs == binds.Items() && Distinct(rs) && Shows(rs, ns) && Watches(rs, dss)
    requires forall i :: 0 <= i < |rs| ==> rs[i].shared in ports
    modifies user, rs`locked, ports
    ensures |copy| <= user.Length && Slots(copy) == Used(Slots(Renamed(old(user[..]), ns, seen)))
    ensures kernel.Answer? ==> InPlace(Shown(copy, dss, kernel.answer), |copy|, dss, FD_SETSIZE)
    ensures DifferentPorts(rs) ==> forall b :: 0 <= b < |ns| ==>
      rs[b].shared.fdSem == SemAfter(old(user[..]), |old(user[..])|, ns, seen, b, old(rs[b].shared.fdSem))
        + if !waited && (old(rs[b].locked) || Took(old(user[..]), |old(user[..])|, ns, seen, b)) then 1 else 0
    ensures waited <==> kernel.Failure? || CountReady(Readies(Shown(copy, dss, kernel.answer)), |Shown(copy, dss, kernel.answer)|) == 0
    ensures waited ==>
      && user[..] == old(user[..]) && result == (if kernel.Failure? then -1 else 0)
      && forall b :: 0 <= b < |ns| ==>
           (rs[b].locked <==> old(rs[b].locked) || Took(old(user[..]), |old(user[..])|, ns, seen, b))
    ensures !waited && Clean(old(user[..]), ns) && Private(dss, old(user[..]), ns) ==>
      && user[..] == MarkAll(old(user[..]), ShouldMark(old(user[..]), ns, seen, kernel.answer))
      && (inside <==> !InternalAnswered(copy, dss, kernel.answer))
      && (inside ==> result == |ShouldMark(old(user[..]), ns, seen, kernel.answer)|)
      && forall b :: 0 <= b < |rs| ==> !rs[b].locked
  {
    hide CountReady, Find, Linked, Watches, List.Items, Slots;
    hide Used, Renamed, FillAll, ShouldMark, WalkBack, Clean, Private, Took, SemAfter, DifferentPorts, InPlace, List.Valid;
    ghost var was := user[..];
    var shadow, n;
    shadow, n, result, copy := AskAboutCopy(user, binds, seen, kernel, rs, ns, dss, ports);
    waited, inside := result <= 0, true;
    if kernel.Answer? { ShownInPlace(copy, dss, kernel.answer); }
    if waited { return; }
    var all := binds.Walk();
    UnlockAll(all, ns, ports);
    inside := SetRevents(user, shadow, n, binds, ns);
    if Clean(was, ns) && Private(dss, was, ns) {
      CallMapsBack(was, ns, seen, kernel.answer, copy, dss);
    }
  }

  /** Compared with a plain `poll`, which writes the kernel's result to every entry: the array agrees
      with it if and only if the kernel answered nothing but `POLLIN` and the caller had cleared
      the results of the entries that are not ready. */
  lemma AgreesWithPlainPollIff(user: seq<PollFd>, ns: seq<Name>, seen: nat -> Seen, answer: (int, int) -> int)
    ensures (forall j :: 0 <= j < |user| ==>
               MarkAll(user, ShouldMark(user, ns, seen, answer))[j].revents
               == Said(answer, ShownAs(user[j], ns, seen(j)), user[j].events))
       <==> forall j :: 0 <= j < |user| ==>
               var said := Said(answer, ShownAs(user[j], ns, seen(j)), user[j].events);
               said == POLLIN || (said == 0 && user[j].revents == 0)
  {
    hide ShownAs, Said;
    var marked := ShouldMark(user, ns, seen, answer);
    forall j | 0 <= j < |user|
      ensures MarkAll(user, marked)[j].revents
           == if Said(answer, ShownAs(user[j], ns, seen(j)), user[j].events) != 0 then 1 else user[j].revents
    {
    }
  }

  /** Two inputs where it differs from a plain `poll`: the kernel's answer was not `POLLIN`, or the
      caller had not cleared the result of an entry that is not ready. */
  lemma DiffersFromPlainPoll(said: int, left: int)
    requires said != POLLIN && (said != 0 || left != 0)
    ensures var user, answer := [PollFd(4, POLLIN, left)], (fd: int, events: int) => said;
            MarkAll(user, ShouldMark(user, [], (i: nat) => Seen(Status(0, 0, 0), 1), answer))[0].revents != said
  {
    var user, answer := [PollFd(4, POLLIN, left)], (fd: int, events: int) => said;
    var seen := (i: nat) => Seen(Status(0, 0, 0), 1);
    assert ShownAs(user[0], [], seen(0)) == 4;
    assert Said(answer, 4, POLLIN) == said;
    assert 0 in ShouldMark(user, [], seen, answer) <==> said != 0;
  }

  // ---------------------------------------------------------------- waiting with the lock

  /** One call of a caller that polls again: what it sees of the ports, and the kernel's answer. */
  datatype Wait = Wait(seen: nat -> Seen, kernel: Kernel)

  ghost predicate TookIn(s: seq<PollFd>, ns: seq<Name>, waits: seq<Wait>, n: nat, b: nat)
    requires n <= |waits| && b < |ns|
  {
    exists j :: 0 <= j < n && Took(s, |s|, ns, waits[j].seen, b)
  }

  method PollOnce(user: array<PollFd>, binds: List<Record>, wait: Wait,
                  ghost rs: seq<Record>, ghost ns: seq<Name>, ghost dss: seq<seq<int>>, ghost ports: set<Port>)
    returns (result: int, waited: bool)
    requires user.Length < FD_SETSIZE
    requires binds.Valid() && rs == binds.Items() && Distinct(rs) && Shows(rs, ns) && Watches(rs, dss)
    requires forall i :: 0 <= i < |rs| ==> rs[i].shared in ports
    modifies user, rs`locked, ports
    ensures |ns| == |rs| && Shows(rs, ns) && Watches(rs, dss) && binds.Valid() && rs == binds.Items()
    ensures waited ==> user[..] == old(user[..]) && forall b :: 0 <= b < |ns| ==>
      (rs[b].locked <==> old(rs[b].locked) || Took(old(user[..]), |old(user[..])|, ns, wait.seen, b))
    ensures !waited ==> wait.kernel.Answer?
    ensures !waited && Clean(old(user[..]), ns) && Private(dss, old(user[..]), ns) ==>
      && user[..] == MarkAll(old(user[..]), ShouldMark(old(user[..]), ns, wait.seen, wait.kernel.answer))
      && forall b :: 0 <= b < |rs| ==> !rs[b].locked
  {
    hide DifferentPorts;
    hide Distinct, ShouldMark, Clean, Private, Took, List.Valid, Renamed, Used, FillAll, CountReady, Linked, ItemsOf;
    var inside;
    ghost var copy;
    result, waited, inside, copy := Ppoll(user, binds, wait.seen, wait.kernel, rs, ns, dss, ports);
  }

  lemma SameNumber(rs: seq<Record>, ns: seq<Name>)
    requires Shows(rs, ns)
    ensures |ns| == |rs|
  {
  }

  /** Polling with the same array until the kernel reports something. As long as it does not, locks
      pile up: a record holds its lock from the first call on that got it. */
  method PollUntilReady(user: array<PollFd>, binds: List<Record>, waits: seq<Wait>,
                        ghost rs: seq<Record>, ghost ns: seq<Name>, ghost dss: seq<seq<int>>, ghost ports: set<Port>)
    returns (k: nat, result: int)
    requires user.Length < FD_SETSIZE
    requires binds.Valid() && rs == binds.Items() && Distinct(rs) && Shows(rs, ns) && Watches(rs, dss)
    requires forall i :: 0 <= i < |rs| ==> rs[i].shared in ports
    modifies user, rs`locked, ports
    ensures k <= |waits|
    ensures k == |waits| ==> user[..] == old(user[..]) && forall b :: 0 <= b < |ns| ==>
      (rs[b].locked <==> old(rs[b].locked) || TookIn(old(user[..]), ns, waits, k, b))
    ensures k < |waits| && Clean(old(user[..]), ns) && Private(dss, old(user[..]), ns) ==>
      && waits[k].kernel.Answer?
      && user[..] == MarkAll(old(user[..]), ShouldMark(old(user[..]), ns, waits[k].seen, waits[k].kernel.answer))
      && forall b :: 0 <= b < |rs| ==> !rs[b].locked
  {
    hide Distinct, ShouldMark, Clean, Private, Took, List.Valid, Shows, Watches;
    SameNumber(rs, ns);
    ghost var was := user[..];
    k, result := 0, 0;
    while k < |waits|
      invariant k <= |waits| && |ns| == |rs| && user[..] == was && Shows(rs, ns) && Watches(rs, dss)
      invariant forall b :: 0 <= b < |ns| ==> (rs[b].locked <==> old(rs[b].locked) || TookIn(was, ns, waits, k, b))
    {
      var waited;
      result, waited := PollOnce(user, binds, waits[k], rs, ns, dss, ports);
      if !waited { return; }
      k := k + 1;
    }
  }

  /** While a process holds a lock, its semaphore is down (`Accounting.HeldMeansDown`). */
  ghost predicate DownWhileHeld(s: seq<PollFd>, ns: seq<Name>, waits: seq<Wait>, b: nat, e: nat)
    requires b < |ns|
  {
    forall n :: 0 <= n < |waits| && TookIn(s, ns, waits, n, b) ==> waits[n].seen(e).fdSem == 0
  }

  /** During a transfer, a blocking socket is admitted in at most one of the calls that report
      nothing, however many there are. */
  lemma AdmittedOnce(s: seq<PollFd>, ns: seq<Name>, waits: seq<Wait>, b: nat, e: nat, j: nat, n: nat)
    requires b < |ns| && e < |s| && FirstIndex(FdsOf(ns), s[e].fd) == b && DownWhileHeld(s, ns, waits, b, e)
    requires forall i :: 0 <= i < |waits| ==> Asks(ns[b], waits[i].seen(e))
    requires j < n < |waits| && Admits(ns[b], waits[j].seen(e))
    ensures !Admits(ns[b], waits[n].seen(e)) && Rename(s[e], ns, waits[n].seen(e)).fd == -1
  {
    assert Took(s, |s|, ns, waits[j].seen, b);
    assert TookIn(s, ns, waits, n, b);
  }

  /** A lock that is asked for in each of `n` rounds, none of which reports anything: `ppoll` does
      not give it back, `select` and `epoll_wait` do. */
  function AfterWaits(sem: int, f: Flags, n: nat, unlocks: bool): (int, Flags) {
    if n == 0 then (sem, f)
    else
      var w := AfterWaits(sem, f, n - 1, unlocks);
      var l := TryLock(w.0, w.1);
      if unlocks then Unlock(l.0, l.1) else l
  }

  /** During a transfer, a process that polls in vain listens in its first round only: from then on
      it holds the lock and is refused it, for any number of rounds, and so is everybody else.
      With an unlock after every round it is admitted in each of them. */
  lemma {:induction false} WaitingStarves(n: Name, f: Flags, st: Status, rounds: nat)
    requires Asks(n, Seen(st, 1)) && !f.locked
    ensures var kept, given := AfterWaits(1, f, rounds, false), AfterWaits(1, f, rounds, true);
            && (kept.0 >= 0 && (Admits(n, Seen(st, kept.0)) <==> rounds == 0))
            && (rounds > 0 ==> kept == (0, f.(locked := true)))
            && given == (1, f) && Admits(n, Seen(st, given.0))
  {
    if rounds > 0 { WaitingStarves(n, f, st, rounds - 1); }
  }
}
