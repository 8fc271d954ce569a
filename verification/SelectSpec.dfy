/** What `select` does to the caller's read set, as functions on values, and what that amounts to:
    the call behaves like a plain `select` on the caller's own descriptors. */
module SelectSpec {
  import opened State
  import opened Steps

  /** What the translation looks at in a record. */
  datatype View = View(fd: int, shadowfd: int, comfd: int, port: int, comfds: seq<int>, monitoring: bool, blocking: bool)

  ghost function ViewOf(r: Record): View
    reads r, r.comfds
  {
    View(r.fd, r.shadowfd, r.comfd, r.port, r.comfds.Items(), r.monitoring, r.blocking)
  }

  ghost function Lists(rs: seq<Record>): set<List<int>> { set r | r in rs :: r.comfds }

  ghost function ViewsOf(rs: seq<Record>): (vs: seq<View>)
    reads rs, Lists(rs)
    ensures |vs| == |rs| && forall i :: 0 <= i < |vs| ==> vs[i] == ViewOf(rs[i])
  {
    if rs == [] then [] else ViewsOf(rs[..|rs| - 1]) + [ViewOf(rs[|rs| - 1])]
  }

  /** How the kernel answers on one internal connection. */
  datatype Recv = Closed | WouldBlock | Failed | Message

  /** What the kernel answers while the internal connections of one record are handled. */
  datatype Net = Net(accepted: int, recv: int -> Recv)

  /** The read set, the number of descriptors to test, and the call's `transfer` flag. */
  datatype Watch = Watch(bits: set<int>, maxFds: int, transfer: bool)

  function Elements(s: seq<int>): set<int> { set x | x in s }

  function Cover(maxFds: int, d: int): int { if maxFds < d + 1 then d + 1 else maxFds }

  function CoverAll(maxFds: int, s: seq<int>): int {
    if s == [] then maxFds else Cover(CoverAll(maxFds, s[..|s| - 1]), s[|s| - 1])
  }

  lemma {:induction false} CoverAppend(maxFds: int, a: seq<int>, b: seq<int>)
    ensures CoverAll(maxFds, a + b) == CoverAll(CoverAll(maxFds, a), b)
  {
    if b == [] {
      assert a + b == a;
    } else {
      var s := a + b;
      assert s[..|s| - 1] == a + b[..|b| - 1] && s[|s| - 1] == b[|b| - 1];
      CoverAppend(maxFds, a, b[..|b| - 1]);
    }
  }

  // ---------------------------------------------------------------- one record

  /** The shadow descriptor replaces the user's, unless the record no longer monitors or a
      transfer is going on and another process holds the lock of this blocking socket. */
  predicate Admits(v: View, transfer: bool, seen: Seen) {
    v.monitoring && (transfer && v.blocking ==> seen.fdSem > 0)
  }

  function Pre(v: View, w: Watch, seen: Seen): Watch {
    if v.fd !in w.bits then w
    else
      var transfer := w.transfer || (v.monitoring && seen.status.transfer > 0);
      if Admits(v, transfer, seen)
      then Watch(w.bits - {v.fd} + {v.shadowfd}, Cover(w.maxFds, v.shadowfd), transfer)
      else Watch(w.bits - {v.fd}, w.maxFds, transfer)
  }

  function Sniff(v: View, w: Watch): Watch {
    var w1 := if v.monitoring then w.(bits := w.bits + {v.comfd}, maxFds := Cover(w.maxFds, v.comfd)) else w;
    w1.(bits := w1.bits + Elements(v.comfds), maxFds := CoverAll(w1.maxFds, v.comfds))
  }

  /** The internal connections after a possible accept. */
  function Connections(v: View, bits: set<int>, net: Net): seq<int> {
    if v.comfd in bits && net.accepted != -1 then v.comfds + [net.accepted] else v.comfds
  }

  function Handle(v: View, bits: set<int>, net: Net): set<int> {
    bits - {v.comfd} - Elements(Connections(v, bits, net))
  }

  /** Those of the first `n` connections that stay, in order: all but the ready ones that the peer
      closed. */
  function Survivors(s: seq<int>, n: nat, ready: set<int>, net: Net): seq<int>
    requires n <= |s|
  {
    if n == 0 then []
    else Survivors(s, n - 1, ready, net) + (if s[n - 1] in ready && net.recv(s[n - 1]).Closed? then [] else [s[n - 1]])
  }

  function Post(v: View, bits: set<int>): set<int> {
    if v.shadowfd in bits then bits - {v.shadowfd} + {v.fd} else bits
  }

  // ---------------------------------------------------------------- all records, in list order

  function PreAll(vs: seq<View>, w: Watch, seen: nat -> Seen): Watch {
    if vs == [] then w else Pre(vs[|vs| - 1], PreAll(vs[..|vs| - 1], w, seen), seen(|vs| - 1))
  }

  function SniffAll(vs: seq<View>, w: Watch): Watch {
    if vs == [] then w else Sniff(vs[|vs| - 1], SniffAll(vs[..|vs| - 1], w))
  }

  function HandleAll(vs: seq<View>, bits: set<int>, net: nat -> Net): set<int> {
    if vs == [] then bits else Handle(vs[|vs| - 1], HandleAll(vs[..|vs| - 1], bits, net), net(|vs| - 1))
  }

  function PostAll(vs: seq<View>, bits: set<int>): set<int> {
    if vs == [] then bits else Post(vs[|vs| - 1], PostAll(vs[..|vs| - 1], bits))
  }

  /** The kernel marks the ready ones among the first descriptors of the set. */
  function Kernel(w: Watch, ready: set<int>): set<int> {
    set x | x in w.bits && x < w.maxFds && x in ready
  }

  // ---------------------------------------------------------------- the refinement

  /** Descriptors are used once: the user's, their shadows, and the internal ones, of which the
      user knows the first kind only. `user` is what the caller asks for. */
  ghost predicate Apart(vs: seq<View>, user: set<int>, net: nat -> Net) {
    && (forall i, j :: 0 <= i < j < |vs| ==> vs[i].fd != vs[j].fd && vs[i].shadowfd != vs[j].shadowfd)
    && (forall i, j :: 0 <= i < |vs| && 0 <= j < |vs| && i != j ==> vs[i].shadowfd != vs[j].fd)
    && (forall i, j :: 0 <= i < |vs| && 0 <= j < |vs| ==> KeptApart(vs[i], vs[j], net(i)))
    && (forall i :: 0 <= i < |vs| ==> Unknown(vs[i], user, net(i)))
  }

  /** The internal descriptors of one record are no other's user or shadow descriptors, and a
      newly accepted one is new. The number of a listener that was closed may be in use again. */
  predicate KeptApart(v: View, other: View, net: Net) {
    && (v.monitoring ==> v.comfd != other.fd && v.comfd != other.shadowfd)
    && other.fd !in v.comfds && other.shadowfd !in v.comfds
    && (net.accepted != -1 ==>
          && net.accepted != other.shadowfd && net.accepted !in other.comfds
          && (other.monitoring ==> net.accepted != other.comfd))
  }

  /** The user does not ask for what the library keeps to itself. */
  predicate Unknown(v: View, user: set<int>, net: Net) {
    && (v.shadowfd != v.fd ==> v.shadowfd !in user)
    && (v.monitoring ==> v.comfd !in user)
    && (forall d :: d in v.comfds ==> d !in user)
    && (net.accepted != -1 ==> net.accepted !in user)
  }

  /** Some record up to position `i` that the user asks for is being transferred: the flag is one
      for the whole call, so a later record on a quiet port asks for its lock as well. */
  ghost predicate Transferring(vs: seq<View>, user: set<int>, seen: nat -> Seen, i: int)
    requires i < |vs|
  {
    exists j :: 0 <= j <= i && vs[j].fd in user && vs[j].monitoring && seen(j).status.transfer > 0
  }

  ghost predicate Admitted(vs: seq<View>, user: set<int>, seen: nat -> Seen, i: int)
    requires 0 <= i < |vs|
  {
    && vs[i].fd in user && vs[i].monitoring
    && (vs[i].blocking && Transferring(vs, user, seen, i) ==> seen(i).fdSem > 0)
  }

  ghost predicate Bound(vs: seq<View>, d: int) { exists i :: 0 <= i < |vs| && vs[i].fd == d }

  /** What the caller should find: its untracked descriptors that are ready, and each bound one
      whose admitted shadow descriptor is ready. */
  ghost predicate Expected(vs: seq<View>, user: set<int>, seen: nat -> Seen, ready: set<int>, d: int) {
    || (d in user && !Bound(vs, d) && d in ready)
    || exists i :: 0 <= i < |vs| && vs[i].fd == d && Admitted(vs, user, seen, i) && vs[i].shadowfd in ready
  }

  /** A descriptor that has the number of a communication descriptor closed earlier. */
  ghost predicate Stale(vs: seq<View>, d: int) {
    exists i :: 0 <= i < |vs| && !vs[i].monitoring && vs[i].comfd == d
  }

  /** What the caller does find: the same, without what was marked under a stale number. */
  ghost predicate Found(vs: seq<View>, user: set<int>, seen: nat -> Seen, ready: set<int>, d: int) {
    || (d in user && !Bound(vs, d) && d in ready && !Stale(vs, d))
    || exists i :: 0 <= i < |vs| && vs[i].fd == d && Admitted(vs, user, seen, i) && vs[i].shadowfd in ready && !Stale(vs, vs[i].shadowfd)
  }

  /** What the kernel marks in the translated set. */
  function Marked(vs: seq<View>, user: set<int>, nfds: int, seen: nat -> Seen, ready: set<int>): set<int> {
    Kernel(SniffAll(vs, PreAll(vs, Watch(user, nfds, false), seen)), ready)
  }

  function Final(vs: seq<View>, user: set<int>, nfds: int, seen: nat -> Seen, ready: set<int>, net: nat -> Net): set<int> {
    PostAll(vs, HandleAll(vs, Marked(vs, user, nfds, seen, ready), net))
  }

  ghost predicate PreMember(vs: seq<View>, user: set<int>, seen: nat -> Seen, d: int) {
    || (d in user && !Bound(vs, d))
    || exists i :: 0 <= i < |vs| && d == vs[i].shadowfd && Admitted(vs, user, seen, i)
  }

  lemma ApartPrefix(vs: seq<View>, user: set<int>, net: nat -> Net)
    requires vs != [] && Apart(vs, user, net)
    ensures Apart(vs[..|vs| - 1], user, net)
  {
  }

  lemma AdmittedInPrefix(vs: seq<View>, user: set<int>, seen: nat -> Seen, n: nat, i: nat)
    requires i < n <= |vs|
    ensures Transferring(vs[..n], user, seen, i) <==> Transferring(vs, user, seen, i)
    ensures Admitted(vs[..n], user, seen, i) <==> Admitted(vs, user, seen, i)
  {
    if Transferring(vs, user, seen, i) {
      var j :| 0 <= j <= i && vs[j].fd in user && vs[j].monitoring && seen(j).status.transfer > 0;
      assert vs[..n][j] == vs[j];
    }
  }

  /** The descriptors after one more record. */
  lemma PreMemberStep(vs: seq<View>, user: set<int>, seen: nat -> Seen, n: nat, d: int)
    requires n + 1 == |vs| && !Bound(vs[..n], vs[n].fd)
    requires forall i :: 0 <= i < n ==> vs[i].shadowfd != vs[n].fd
    ensures PreMember(vs, user, seen, d)
       <==> || (PreMember(vs[..n], user, seen, d) && d != vs[n].fd)
            || (d == vs[n].shadowfd && Admitted(vs, user, seen, n))
  {
    forall i | 0 <= i < n ensures Admitted(vs[..n], user, seen, i) <==> Admitted(vs, user, seen, i) {
      AdmittedInPrefix(vs, user, seen, n, i);
    }
    assert Bound(vs, d) <==> Bound(vs[..n], d) || d == vs[n].fd;
  }

  lemma PreBit(v: View, w: Watch, seen: Seen, d: int)
    ensures d in Pre(v, w, seen).bits <==>
      (d in w.bits && d != v.fd) || (v.fd in w.bits && d == v.shadowfd && Admits(v, Pre(v, w, seen).transfer, seen))
  {
  }

  lemma UnboundMember(vs: seq<View>, user: set<int>, seen: nat -> Seen, d: int)
    requires !Bound(vs, d) && forall i :: 0 <= i < |vs| ==> vs[i].shadowfd != d
    ensures PreMember(vs, user, seen, d) <==> d in user
  {
  }

  lemma TransferStep(vs: seq<View>, user: set<int>, seen: nat -> Seen, n: nat)
    requires n + 1 == |vs|
    ensures Transferring(vs, user, seen, n)
       <==> (n > 0 && Transferring(vs[..n], user, seen, n - 1))
            || (vs[n].fd in user && vs[n].monitoring && seen(n).status.transfer > 0)
  {
    if n > 0 { AdmittedInPrefix(vs, user, seen, n, n - 1); }
  }

  lemma {:induction false} PreAllBits(vs: seq<View>, user: set<int>, nfds: int, seen: nat -> Seen, net: nat -> Net)
    requires Apart(vs, user, net)
    ensures var w := PreAll(vs, Watch(user, nfds, false), seen);
            && (forall d :: d in w.bits <==> PreMember(vs, user, seen, d))
            && (w.transfer <==> |vs| > 0 && Transferring(vs, user, seen, |vs| - 1))
  {
    if vs != [] {
      var n := |vs| - 1;
      var us, v := vs[..n], vs[n];
      ApartPrefix(vs, user, net);
      PreAllBits(us, user, nfds, seen, net);
      LastApart(vs, user, net);
      TransferStep(vs, user, seen, n);
      UnboundMember(us, user, seen, v.fd);
      PreAllLast(vs, user, nfds, seen);
    }
  }

  lemma LastApart(vs: seq<View>, user: set<int>, net: nat -> Net)
    requires vs != [] && Apart(vs, user, net)
    ensures var n := |vs| - 1; !Bound(vs[..n], vs[n].fd) && forall i :: 0 <= i < n ==> vs[i].shadowfd != vs[n].fd
  {
  }

  lemma PreAllLast(vs: seq<View>, user: set<int>, nfds: int, seen: nat -> Seen)
    requires vs != []
    requires var n := |vs| - 1; !Bound(vs[..n], vs[n].fd) && forall i :: 0 <= i < n ==> vs[i].shadowfd != vs[n].fd
    requires var n := |vs| - 1; var w := PreAll(vs[..n], Watch(user, nfds, false), seen);
             && (forall d :: d in w.bits <==> PreMember(vs[..n], user, seen, d))
             && (vs[n].fd in w.bits <==> vs[n].fd in user)
             && (w.transfer || (vs[n].fd in user && vs[n].monitoring && seen(n).status.transfer > 0)
                 <==> Transferring(vs, user, seen, n))
    ensures var w := PreAll(vs, Watch(user, nfds, false), seen);
            && (forall d :: d in w.bits <==> PreMember(vs, user, seen, d))
            && (w.transfer <==> Transferring(vs, user, seen, |vs| - 1))
  {
    hide PreMember, Bound, Transferring;
    var n := |vs| - 1;
    var w0 := PreAll(vs[..n], Watch(user, nfds, false), seen);
    var w := PreAll(vs, Watch(user, nfds, false), seen);
    assert w == Pre(vs[n], w0, seen(n));
    forall d ensures d in w.bits <==> PreMember(vs, user, seen, d) {
      PreBit(vs[n], w0, seen(n), d);
      PreMemberStep(vs, user, seen, n, d);
    }
  }

  /** Nothing is accepted. */
  function Quiet(): nat -> Net { (i: nat) => Net(-1, (c: int) => WouldBlock) }

  /** Record `i` takes the lock of its port: the caller listens to it, it monitors a blocking socket,
      a transfer was seen in this call by then, and the lock is free. */
  ghost predicate Locks(vs: seq<View>, user: set<int>, seen: nat -> Seen, i: int)
    requires 0 <= i < |vs|
  {
    vs[i].fd in user && vs[i].monitoring && vs[i].blocking && Transferring(vs, user, seen, i) && seen(i).fdSem > 0
  }

  /** The kernel is asked about a record's shadow descriptor exactly if the record is admitted. */
  lemma AskedAbout(vs: seq<View>, user: set<int>, nfds: int, seen: nat -> Seen, i: int)
    requires Apart(vs, user, Quiet()) && 0 <= i < |vs|
    ensures vs[i].shadowfd in SniffAll(vs, PreAll(vs, Watch(user, nfds, false), seen)).bits <==> Admitted(vs, user, seen, i)
  {
    var w := PreAll(vs, Watch(user, nfds, false), seen);
    PreAllBits(vs, user, nfds, seen, Quiet());
    SniffAllBits(vs, w);
    NoShadowSniffed(vs, user, i);
    OwnShadow(vs, user, seen, i);
  }

  lemma NoShadowSniffed(vs: seq<View>, user: set<int>, i: int)
    requires Apart(vs, user, Quiet()) && 0 <= i < |vs|
    ensures !Sniffed(vs, vs[i].shadowfd)
  {
    forall j | 0 <= j < |vs| ensures KeptApart(vs[j], vs[i], Quiet()(j)) { }
  }

  lemma OwnShadow(vs: seq<View>, user: set<int>, seen: nat -> Seen, i: int)
    requires Apart(vs, user, Quiet()) && 0 <= i < |vs|
    ensures PreMember(vs, user, seen, vs[i].shadowfd) <==> Admitted(vs, user, seen, i)
  {
    hide Admitted;
    assert Unknown(vs[i], user, Quiet()(i));
    if vs[i].shadowfd in user { assert vs[i].shadowfd == vs[i].fd && Bound(vs, vs[i].shadowfd); }
  }

  ghost predicate InternalOf(vs: seq<View>, d: int) {
    exists i :: 0 <= i < |vs| && (d == vs[i].comfd || d in vs[i].comfds)
  }

  ghost predicate Sniffed(vs: seq<View>, d: int) {
    exists i :: 0 <= i < |vs| && ((vs[i].monitoring && d == vs[i].comfd) || d in vs[i].comfds)
  }

  lemma {:induction false} SniffAllBits(vs: seq<View>, w: Watch)
    ensures forall d :: d in SniffAll(vs, w).bits <==> d in w.bits || Sniffed(vs, d)
  {
    if vs != [] {
      var n := |vs| - 1;
      SniffAllBits(vs[..n], w);
      forall d ensures Sniffed(vs, d) <==> Sniffed(vs[..n], d) || (vs[n].monitoring && d == vs[n].comfd) || d in vs[n].comfds { }
    }
  }

  /** Everything the translation adds is below the number of descriptors the kernel tests. */
  lemma {:induction false} CoverAllCovers(maxFds: int, s: seq<int>)
    ensures maxFds <= CoverAll(maxFds, s) && forall d :: d in s ==> d < CoverAll(maxFds, s)
  {
    if s != [] {
      var n := |s| - 1;
      CoverAllCovers(maxFds, s[..n]);
      assert forall d :: d in s ==> d in s[..n] || d == s[n];
    }
  }

  lemma {:induction false} PreAllCovers(vs: seq<View>, w: Watch, seen: nat -> Seen)
    requires forall d :: d in w.bits ==> d < w.maxFds
    ensures var w' := PreAll(vs, w, seen); w.maxFds <= w'.maxFds && forall d :: d in w'.bits ==> d < w'.maxFds
  {
    if vs != [] { PreAllCovers(vs[..|vs| - 1], w, seen); }
  }

  lemma {:induction false} SniffAllCovers(vs: seq<View>, w: Watch)
    requires forall d :: d in w.bits ==> d < w.maxFds
    ensures var w' := SniffAll(vs, w); w.maxFds <= w'.maxFds && forall d :: d in w'.bits ==> d < w'.maxFds
  {
    if vs != [] {
      var n := |vs| - 1;
      SniffAllCovers(vs[..n], w);
      var m := SniffAll(vs[..n], w).maxFds;
      CoverAllCovers(if vs[n].monitoring then Cover(m, vs[n].comfd) else m, vs[n].comfds);
    }
  }

  /** Handling clears exactly the internal descriptors, new connections included. */
  lemma {:induction false} HandleAllBits(vs: seq<View>, bits: set<int>, net: nat -> Net)
    requires forall i :: 0 <= i < |vs| && net(i).accepted != -1 ==> net(i).accepted !in bits
    ensures forall d :: d in HandleAll(vs, bits, net) <==> d in bits && !InternalOf(vs, d)
  {
    if vs != [] {
      var n := |vs| - 1;
      HandleAllBits(vs[..n], bits, net);
      forall d ensures InternalOf(vs, d) <==> InternalOf(vs[..n], d) || d == vs[n].comfd || d in vs[n].comfds { }
    }
  }

  ghost predicate ShadowIn(vs: seq<View>, bits: set<int>, d: int) {
    exists i :: 0 <= i < |vs| && vs[i].fd == d && vs[i].shadowfd in bits
  }

  ghost predicate IsShadow(vs: seq<View>, d: int) { exists i :: 0 <= i < |vs| && vs[i].shadowfd == d }

  lemma {:induction false} PostAllBits(vs: seq<View>, bits: set<int>, user: set<int>, net: nat -> Net)
    requires Apart(vs, user, net)
    ensures forall d :: d in PostAll(vs, bits) <==> (d in bits && !IsShadow(vs, d)) || ShadowIn(vs, bits, d)
  {
    if vs != [] {
      var n := |vs| - 1;
      var us, v := vs[..n], vs[n];
      ApartPrefix(vs, user, net);
      PostAllBits(us, bits, user, net);
      var b := PostAll(us, bits);
      assert !IsShadow(us, v.shadowfd) && !ShadowIn(us, bits, v.shadowfd);
      assert v.shadowfd in b <==> v.shadowfd in bits;
      forall d ensures d in PostAll(vs, bits) <==> (d in bits && !IsShadow(vs, d)) || ShadowIn(vs, bits, d) {
        assert IsShadow(vs, d) <==> IsShadow(us, d) || d == v.shadowfd;
        assert ShadowIn(vs, bits, d) <==> ShadowIn(us, bits, d) || (d == v.fd && v.shadowfd in bits);
      }
    }
  }

  lemma KernelKnowsNoNewcomer(vs: seq<View>, user: set<int>, seen: nat -> Seen, net: nat -> Net, d: int, i: nat)
    requires Apart(vs, user, net) && i < |vs| && net(i).accepted != -1
    requires PreMember(vs, user, seen, d) || Sniffed(vs, d)
    ensures d != net(i).accepted
  {
    forall j | 0 <= j < |vs| ensures KeptApart(vs[i], vs[j], net(i)) { }
    assert Unknown(vs[i], user, net(i));
  }

  /** What the kernel marks, and what is left when the internal connections are handled. */
  lemma HandledBits(vs: seq<View>, user: set<int>, nfds: int, seen: nat -> Seen, ready: set<int>, net: nat -> Net)
    requires Apart(vs, user, net) && forall x :: x in user ==> x < nfds
    ensures var k := Marked(vs, user, nfds, seen, ready);
            && (forall d :: d in k <==> d in ready && (PreMember(vs, user, seen, d) || Sniffed(vs, d)))
            && (forall d :: d in HandleAll(vs, k, net) <==> d in k && !InternalOf(vs, d))
  {
    var w0 := Watch(user, nfds, false);
    PreAllBits(vs, user, nfds, seen, net);
    PreAllCovers(vs, w0, seen);
    var w1 := PreAll(vs, w0, seen);
    SniffAllBits(vs, w1);
    SniffAllCovers(vs, w1);
    var k := Marked(vs, user, nfds, seen, ready);
    forall i | 0 <= i < |vs| && net(i).accepted != -1 ensures net(i).accepted !in k {
      if net(i).accepted in k { KernelKnowsNoNewcomer(vs, user, seen, net, net(i).accepted, i); }
    }
    HandleAllBits(vs, k, net);
  }

  /** `select` refines a plain `select` on the caller's own descriptors: the final read set is
      what the caller should find, except for what is marked under a number that some record keeps
      from a communication descriptor that it has closed. */
  lemma SelectRefines(vs: seq<View>, user: set<int>, nfds: int, seen: nat -> Seen, ready: set<int>, net: nat -> Net, d: int)
    requires Apart(vs, user, net) && forall x :: x in user ==> x < nfds
    ensures d in Final(vs, user, nfds, seen, ready, net) <==> Found(vs, user, seen, ready, d)
  {
    var k := Marked(vs, user, nfds, seen, ready);
    HandledBits(vs, user, nfds, seen, ready, net);
    var h := HandleAll(vs, k, net);
    PostAllBits(vs, h, user, net);
    Finally(vs, user, seen, ready, net, h, d);
  }

  lemma Finally(vs: seq<View>, user: set<int>, seen: nat -> Seen, ready: set<int>, net: nat -> Net, h: set<int>, d: int)
    requires Apart(vs, user, net)
    requires forall x :: x in h <==> x in ready && (PreMember(vs, user, seen, x) || Sniffed(vs, x)) && !InternalOf(vs, x)
    ensures (d in h && !IsShadow(vs, d)) || ShadowIn(vs, h, d) <==> Found(vs, user, seen, ready, d)
  {
    forall i | 0 <= i < |vs| ensures vs[i].shadowfd in h <==>
      vs[i].shadowfd in ready && Admitted(vs, user, seen, i) && !Stale(vs, vs[i].shadowfd)
    {
    }
  }

  /** The exact condition: the caller finds what it should, for every descriptor, if and only if
      nothing is ready that the kernel is asked about for the caller - an unbound descriptor, or
      an admitted shadow descriptor - under the number of a closed communication descriptor. */
  lemma SelectIsExactIff(vs: seq<View>, user: set<int>, nfds: int, seen: nat -> Seen, ready: set<int>, net: nat -> Net)
    requires Apart(vs, user, net) && forall x :: x in user ==> x < nfds
    ensures (forall d :: d in Final(vs, user, nfds, seen, ready, net) <==> Expected(vs, user, seen, ready, d))
       <==> !exists x :: PreMember(vs, user, seen, x) && x in ready && Stale(vs, x)
  {
    forall d ensures d in Final(vs, user, nfds, seen, ready, net) <==> Found(vs, user, seen, ready, d) {
      SelectRefines(vs, user, nfds, seen, ready, net, d);
    }
    hide Final, Stale, Admitted;
    forall x | PreMember(vs, user, seen, x) && x in ready && Stale(vs, x)
      ensures exists d :: Expected(vs, user, seen, ready, d) && !Found(vs, user, seen, ready, d)
    {
      Missed(vs, user, seen, ready, net, x);
    }
  }

  /** What is missed when something is ready under a stale number. */
  lemma Missed(vs: seq<View>, user: set<int>, seen: nat -> Seen, ready: set<int>, net: nat -> Net, x: int)
    requires Apart(vs, user, net) && PreMember(vs, user, seen, x) && x in ready && Stale(vs, x)
    ensures exists d :: Expected(vs, user, seen, ready, d) && !Found(vs, user, seen, ready, d)
  {
    hide Stale, Admitted;
    var d := x;
    if !(x in user && !Bound(vs, x)) {
      var i :| 0 <= i < |vs| && x == vs[i].shadowfd && Admitted(vs, user, seen, i);
      d := vs[i].fd;
      assert Bound(vs, d);
    }
    assert Expected(vs, user, seen, ready, d) && !Found(vs, user, seen, ready, d);
  }

  /** Both kinds of input where it fails: a bound socket, and an unbound descriptor, that got the
      number 9 after a record had closed its listener of that number. */
  lemma StaleNumbersAreMissed(unbound: bool)
    ensures var vs := [View(3, 5, 9, 80, [], false, false)] + if unbound then [] else [View(9, 9, 10, 81, [], true, false)];
            var seen := (i: nat) => Seen(Status(0, 1, 0), 1);
            var net := (i: nat) => Net(-1, (c: int) => WouldBlock);
            && Apart(vs, {9}, net)
            && Expected(vs, {9}, seen, {9}, 9) && 9 !in Final(vs, {9}, 20, seen, {9}, net)
  {
    var vs := [View(3, 5, 9, 80, [], false, false)] + if unbound then [] else [View(9, 9, 10, 81, [], true, false)];
    var seen := (i: nat) => Seen(Status(0, 1, 0), 1);
    var net := (i: nat) => Net(-1, (c: int) => WouldBlock);
    assert Stale(vs, 9) by { assert !vs[0].monitoring && vs[0].comfd == 9; }
    if !unbound { assert vs[1].fd == 9 && Admitted(vs, {9}, seen, 1); }
    SelectRefines(vs, {9}, 20, seen, {9}, net, 9);
  }

  /** Renaming back moves bits, it neither loses nor merges any. */
  lemma {:induction false} PostAllSize(vs: seq<View>, bits: set<int>, user: set<int>, net: nat -> Net)
    requires Apart(vs, user, net)
    requires forall i :: 0 <= i < |vs| && vs[i].fd != vs[i].shadowfd ==> vs[i].fd !in bits
    ensures |PostAll(vs, bits)| == |bits|
  {
    if vs != [] {
      var n := |vs| - 1;
      var us, v := vs[..n], vs[n];
      ApartPrefix(vs, user, net);
      PostAllSize(us, bits, user, net);
      PostAllBits(us, bits, user, net);
      var b := PostAll(us, bits);
      assert !ShadowIn(us, bits, v.fd);
      assert v.fd != v.shadowfd ==> v.fd !in b;
    }
  }

  lemma UserFdIsReplaced(vs: seq<View>, user: set<int>, seen: nat -> Seen, net: nat -> Net, i: nat)
    requires Apart(vs, user, net) && i < |vs| && vs[i].fd != vs[i].shadowfd
    ensures !PreMember(vs, user, seen, vs[i].fd) && !Sniffed(vs, vs[i].fd)
  {
    forall j | 0 <= j < |vs| ensures KeptApart(vs[j], vs[i], net(j)) { }
  }

  /** The kernel's count, corrected by the internal bits that were cleared, is the number of bits
      in the set that the caller gets back. */
  lemma CountIsExact(vs: seq<View>, user: set<int>, nfds: int, seen: nat -> Seen, ready: set<int>, net: nat -> Net)
    requires Apart(vs, user, net) && forall x :: x in user ==> x < nfds
    ensures |Final(vs, user, nfds, seen, ready, net)| == |HandleAll(vs, Marked(vs, user, nfds, seen, ready), net)|
  {
    var k := Marked(vs, user, nfds, seen, ready);
    HandledBits(vs, user, nfds, seen, ready, net);
    RenamedSize(vs, user, seen, net, HandleAll(vs, k, net));
  }

  lemma RenamedSize(vs: seq<View>, user: set<int>, seen: nat -> Seen, net: nat -> Net, h: set<int>)
    requires Apart(vs, user, net)
    requires forall d :: d in h ==> PreMember(vs, user, seen, d) || Sniffed(vs, d)
    ensures |PostAll(vs, h)| == |h|
  {
    forall i | 0 <= i < |vs| && vs[i].fd != vs[i].shadowfd ensures vs[i].fd !in h {
      UserFdIsReplaced(vs, user, seen, net, i);
    }
    PostAllSize(vs, h, user, net);
  }
}
