/** One round of `select` over all records: the four passes over the bind list around the kernel's
    answer. */
module SelectCall {
  import opened Steps
  import opened State
  import opened SelectSpec
  import opened Select
  import Core

  /** `vs` is what the translation sees in the records. */
  ghost predicate Shows(rs: seq<Record>, vs: seq<View>)
    reads rs, Lists(rs)
  {
    |vs| == |rs| && forall i {:trigger rs[i]} :: 0 <= i < |rs| ==>
      && vs[i].fd == rs[i].fd && vs[i].shadowfd == rs[i].shadowfd && vs[i].comfd == rs[i].comfd && vs[i].port == rs[i].port
      && vs[i].comfds == rs[i].comfds.Items() && vs[i].monitoring == rs[i].monitoring && vs[i].blocking == rs[i].blocking
  }

  ghost predicate Different(rs: seq<Record>) {
    forall i, j :: 0 <= i < j < |rs| ==> rs[i] != rs[j] && rs[i].shared != rs[j].shared && rs[i].comfds != rs[j].comfds
  }

  ghost predicate Within(rs: seq<Record>, ports: set<Port>, lists: set<List<int>>) {
    forall i :: 0 <= i < |rs| ==> rs[i].shared in ports && rs[i].comfds in lists
  }

  /** Record `i` asks for the lock of its port: the caller listens to it, it monitors a blocking
      socket, and a transfer was seen in this call. */
  ghost predicate Asks(vs: seq<View>, w: Watch, seen: nat -> Seen, i: nat)
    requires i < |vs|
  {
    var before := PreAll(vs[..i], w, seen);
    vs[i].fd in before.bits && vs[i].monitoring && vs[i].blocking && (before.transfer || seen(i).status.transfer > 0)
  }

  ghost predicate Takes(vs: seq<View>, w: Watch, seen: nat -> Seen, i: nat)
    requires i < |vs|
  {
    Asks(vs, w, seen, i) && seen(i).fdSem > 0
  }

  /** Among the first `i` records the caller listens to one whose port is being transferred. */
  lemma {:induction false} TakesIs(vs: seq<View>, user: set<int>, nfds: int, seen: nat -> Seen, i: nat)
    requires Apart(vs, user, Quiet()) && i < |vs|
    ensures Takes(vs, Watch(user, nfds, false), seen, i) <==> Locks(vs, user, seen, i)
  {
    var us := vs[..i];
    ApartUpTo(vs, user, i);
    PreAllBits(us, user, nfds, seen, Quiet());
    UnboundUpTo(vs, user, i);
    UnboundMember(us, user, seen, vs[i].fd);
    TransferUpTo(vs, user, seen, i);
    hide PreMember, PreAll, Transferring, Apart;
  }

  lemma ApartUpTo(vs: seq<View>, user: set<int>, i: nat)
    requires Apart(vs, user, Quiet()) && i <= |vs|
    ensures Apart(vs[..i], user, Quiet())
  {
  }

  lemma UnboundUpTo(vs: seq<View>, user: set<int>, i: nat)
    requires Apart(vs, user, Quiet()) && i < |vs|
    ensures !Bound(vs[..i], vs[i].fd) && forall j :: 0 <= j < i ==> vs[..i][j].shadowfd != vs[i].fd
  {
  }

  lemma TransferUpTo(vs: seq<View>, user: set<int>, seen: nat -> Seen, i: nat)
    requires i < |vs|
    ensures Transferring(vs, user, seen, i)
       <==> (i > 0 && Transferring(vs[..i], user, seen, i - 1))
            || (vs[i].fd in user && vs[i].monitoring && seen(i).status.transfer > 0)
  {
    if i > 0 { AdmittedInPrefix(vs, user, seen, i, i - 1); }
  }

  lemma PreAllStep(vs: seq<View>, w: Watch, seen: nat -> Seen, i: nat)
    requires i < |vs|
    ensures PreAll(vs[..i + 1], w, seen) == Pre(vs[i], PreAll(vs[..i], w, seen), seen(i))
  {
    assert vs[..i + 1][..i] == vs[..i];
  }

  /** The record and its port once it has gone through the first pass; `got`: with the lock. */
  ghost predicate Begun(r: Record, was: bool, seen: Seen, got: bool)
    reads r, r.shared
  {
    && (r.locked <==> was || got) && r.shared.fdSem == seen.fdSem - (if got then 1 else 0) && r.shared.Status() == seen.status
  }

  /** One record of the first pass. */
  method PreSelectAt(sel: Selector, r: Record, readfds: FdSet, seen: nat -> Seen, ghost vs: seq<View>, ghost w: Watch, i: nat)
    requires i < |vs| && vs[i] == ViewOf(r) && sel.Watched(readfds.bits) == PreAll(vs[..i], w, seen)
    modifies sel`maxFds, sel`transfer, readfds, r`locked, r.shared
    ensures sel.Watched(readfds.bits) == PreAll(vs[..i + 1], w, seen)
    ensures Begun(r, old(r.locked), seen(i), Takes(vs, w, seen, i))
  {
    PreAllStep(vs, w, seen, i);
    sel.PreSelect(r, readfds, seen(i));
  }

  /** The pass before the kernel call, over the bind list. */
  method PreSelectAll(sel: Selector, rs: seq<Record>, readfds: FdSet, seen: nat -> Seen, ghost vs: seq<View>,
                      ghost ports: set<Port>, ghost lists: set<List<int>>)
    requires Different(rs) && Shows(rs, vs) && Within(rs, ports, lists)
    modifies sel`maxFds, sel`transfer, readfds, rs`locked, ports
    ensures Shows(rs, vs)
    ensures sel.Watched(readfds.bits) == PreAll(vs, old(sel.Watched(readfds.bits)), seen)
    ensures forall i {:trigger rs[i]} :: 0 <= i < |rs| ==>
      Begun(rs[i], old(rs[i].locked), seen(i), Takes(vs, old(sel.Watched(readfds.bits)), seen, i))
  {
    hide Takes, List.Items, Begun;
    ghost var w := sel.Watched(readfds.bits);
    for i := 0 to |rs|
      invariant Shows(rs, vs) && sel.Watched(readfds.bits) == PreAll(vs[..i], w, seen)
      invariant forall j {:trigger rs[j]} :: i <= j < |rs| ==> rs[j].locked == old(rs[j].locked)
      invariant forall j {:trigger rs[j]} :: 0 <= j < i ==> Begun(rs[j], old(rs[j].locked), seen(j), Takes(vs, w, seen, j))
    {
      assert vs[i] == ViewOf(rs[i]);
      PreSelectAt(sel, rs[i], readfds, seen, vs, w, i);
    }
    assert vs[..|rs|] == vs;
  }

  lemma SniffAllStep(vs: seq<View>, w: Watch, i: nat)
    requires i < |vs|
    ensures SniffAll(vs[..i + 1], w) == Sniff(vs[i], SniffAll(vs[..i], w))
  {
    assert vs[..i + 1][..i] == vs[..i];
  }

  method SniffConnAll(sel: Selector, rs: seq<Record>, readfds: FdSet, ghost vs: seq<View>)
    requires Shows(rs, vs) && ListsValid(rs)
    modifies sel`maxFds, readfds
    ensures sel.Watched(readfds.bits) == SniffAll(vs, old(sel.Watched(readfds.bits)))
  {
    ghost var w := sel.Watched(readfds.bits);
    for i := 0 to |rs|
      invariant sel.Watched(readfds.bits) == SniffAll(vs[..i], w)
    {
      SniffAllStep(vs, w, i);
      assert vs[i] == ViewOf(rs[i]);
      sel.SniffConn(rs[i], readfds);
    }
    assert vs[..|rs|] == vs;
  }

  ghost predicate ListsValid(rs: seq<Record>)
    reads Lists(rs)
  {
    forall i :: 0 <= i < |rs| ==> rs[i].comfds.Valid()
  }

  /** How far the pass that handles connections has come: the read set, and all records' lists. */
  datatype Pass = Pass(bits: set<int>, items: seq<seq<int>>)

  function PassOver(v: View, i: nat, p: Pass, net: Net): Pass
    requires i < |p.items|
  {
    Pass(Handle(v, p.bits, net), p.items[i := After(v, p.bits, net)])
  }

  function PassTo(vs: seq<View>, n: nat, p: Pass, net: nat -> Net): (q: Pass)
    requires n <= |vs| == |p.items|
    ensures |q.items| == |vs|
  {
    if n == 0 then p else PassOver(vs[n - 1], n - 1, PassTo(vs, n - 1, p, net), net(n - 1))
  }

  ghost function Comfds(vs: seq<View>): seq<seq<int>> { seq(|vs|, i requires 0 <= i < |vs| => vs[i].comfds) }

  /** Every record's bits are cleared in turn, and every list is handled with the bits that its
      predecessors left. */
  lemma {:induction false} PassIs(vs: seq<View>, n: nat, bits: set<int>, net: nat -> Net, i: nat)
    requires n <= |vs| && i < |vs|
    ensures var p := PassTo(vs, n, Pass(bits, Comfds(vs)), net);
            && p.bits == HandleAll(vs[..n], bits, net)
            && p.items[i] == if i < n then After(vs[i], HandleAll(vs[..i], bits, net), net(i)) else vs[i].comfds
  {
    hide After, Handle, HandleAll;
    BitsOfPass(vs, n, bits, net);
    if n > 0 {
      BitsOfPass(vs, n - 1, bits, net);
      PassIs(vs, n - 1, bits, net, i);
    }
  }

  lemma {:induction false} BitsOfPass(vs: seq<View>, n: nat, bits: set<int>, net: nat -> Net)
    requires n <= |vs|
    ensures PassTo(vs, n, Pass(bits, Comfds(vs)), net).bits == HandleAll(vs[..n], bits, net)
  {
    hide After, Handle;
    if n > 0 {
      BitsOfPass(vs, n - 1, bits, net);
      assert vs[..n][..n - 1] == vs[..n - 1] && vs[..n][n - 1] == vs[n - 1];
    }
  }

  /** The first `n` are pairwise different. */
  ghost predicate NoRepeat(s: seq<int>, n: nat)
    requires n <= |s|
  {
    n == 0 || (s[n - 1] !in s[..n - 1] && NoRepeat(s, n - 1))
  }

  lemma {:induction false} NoRepeatIsDistinct(s: seq<int>, n: nat)
    requires n <= |s| && NoRepeat(s, n)
    ensures Distinct(s[..n])
  {
    if n > 0 {
      NoRepeatIsDistinct(s, n - 1);
      assert forall i :: 0 <= i < n - 1 ==> s[..n][i] == s[..n - 1][i];
    }
  }

  /** A newly accepted descriptor is not yet listed, for the first `n` records. */
  ghost predicate NewOnes(vs: seq<View>, n: nat, net: nat -> Net)
    requires n <= |vs|
  {
    n == 0 || (NewOnes(vs, n - 1, net) && Unlisted(vs[n - 1], net(n - 1)))
  }

  ghost predicate Unlisted(v: View, net: Net) {
    var full := Connections(v, {v.comfd}, net);
    NoRepeat(full, |full|)
  }

  lemma UnlistedIsDistinct(v: View, bits: set<int>, net: Net)
    requires Unlisted(v, net)
    ensures Distinct(Connections(v, bits, net))
  {
    var full := Connections(v, {v.comfd}, net);
    NoRepeatIsDistinct(full, |full|);
    assert full[..|full|] == full;
    assert forall i :: 0 <= i < |v.comfds| ==> v.comfds[i] == full[i];
  }

  lemma {:induction false} NewOnesAt(vs: seq<View>, n: nat, net: nat -> Net, i: nat)
    requires i < n <= |vs| && NewOnes(vs, n, net)
    ensures Unlisted(vs[i], net(i))
  {
    if i < n - 1 { NewOnesAt(vs, n - 1, net, i); }
  }

  /** The lists of the records are well-formed and hold `items`. */
  ghost predicate Hold(rs: seq<Record>, items: seq<seq<int>>)
    reads Lists(rs)
  {
    |items| == |rs| && forall i {:trigger rs[i]} :: 0 <= i < |rs| ==> rs[i].comfds.Valid() && rs[i].comfds.Items() == items[i]
  }

  /** What the pass over record `i` builds on. */
  lemma PassAt(vs: seq<View>, bits: set<int>, net: nat -> Net, i: nat)
    requires i < |vs| && NewOnes(vs, |vs|, net)
    ensures var p := PassTo(vs, i, Pass(bits, Comfds(vs)), net);
            p.items[i] == vs[i].comfds && Distinct(Connections(vs[i], p.bits, net(i)))
  {
    PassIs(vs, i, bits, net, i);
    NewOnesAt(vs, |vs|, net, i);
    UnlistedIsDistinct(vs[i], PassTo(vs, i, Pass(bits, Comfds(vs)), net).bits, net(i));
  }

  /** The record answers a request while it handles its connections on `bits`. */
  ghost predicate Tells(v: View, bits: set<int>, net: Net) {
    v.port != -1 && exists c :: (c in v.comfds || Joins(c, bits, net, v.comfd)) && IsReady(c, bits, v.comfd) && net.recv(c).Message?
  }

  method HandleRecord(sel: Selector, r: Record, readfds: FdSet, net: Net, ghost v: View) returns (sent: seq<Sent>)
    requires r.comfds.Valid() && v == ViewOf(r) && Distinct(Connections(v, readfds.bits, net))
    modifies sel`correction, readfds, r`transfer, r.shared`transfer, r.comfds
    ensures r.comfds.Valid() && r.comfds.Items() == After(v, old(readfds.bits), net)
    ensures readfds.bits == Handle(v, old(readfds.bits), net)
    ensures sel.correction == old(sel.correction) + |old(readfds.bits)| - |readfds.bits|
    ensures Conversed(old(r.comfds.Items()), old(readfds.bits), net, r.shadowfd, r.comfd, r.port, r.comfds.Items(), sent)
    ensures sent == SentOn(v, old(readfds.bits), net)
    ensures Core.Standing(r) == Core.Count(old(Core.Standing(r)), Tells(v, old(readfds.bits), net))
  {
    hide Connections, After, Handle, Conversed, Replies, Answers, Distinct, List.Valid, List.Items;
    sent := sel.HandleConn(r, readfds, net);
  }

  /** What is sent on the connections of a record. */
  function SentOn(v: View, bits: set<int>, net: Net): seq<Sent> {
    var full := Connections(v, bits, net);
    Replies(full, |full|, bits - {v.comfd}, net, Offer(v.shadowfd, v.comfd, v.port))
  }

  /** What the first `n` records send, each on the bits that its predecessors left. */
  function SentBy(vs: seq<View>, n: nat, bits: set<int>, net: nat -> Net): seq<Sent>
    requires n <= |vs|
  {
    if n == 0 then [] else SentBy(vs, n - 1, bits, net) + SentOn(vs[n - 1], HandleAll(vs[..n - 1], bits, net), net(n - 1))
  }

  /** How records and ports stand when the first `n` records are done. */
  ghost function ToldBy(vs: seq<View>, n: nat, bits: set<int>, net: nat -> Net, sos: seq<(Status, Flags)>): (r: seq<(Status, Flags)>)
    requires |sos| == |vs|
    ensures |r| == |vs|
    ensures forall k :: 0 <= k < |vs| ==>
      r[k] == if k < n then Core.Count(sos[k], Tells(vs[k], HandleAll(vs[..k], bits, net), net(k))) else sos[k]
  {
    seq(|vs|, k requires 0 <= k < |vs| =>
      if k < n then Core.Count(sos[k], Tells(vs[k], HandleAll(vs[..k], bits, net), net(k))) else sos[k])
  }

  /** One record of the pass; the lists of the others stay as they are. */
  method HandleOne(sel: Selector, rs: seq<Record>, i: nat, readfds: FdSet, net: Net, ghost v: View, ghost p: Pass,
                   ghost ports: set<Port>, ghost lists: set<List<int>>)
    returns (sent: seq<Sent>, ghost p': Pass)
    requires i < |rs| && Different(rs) && Within(rs, ports, lists) && Hold(rs, p.items) && readfds.bits == p.bits
    requires v == ViewOf(rs[i]) && Distinct(Connections(v, p.bits, net))
    modifies sel`correction, readfds, rs`transfer, ports`transfer, lists
    ensures p' == PassOver(v, i, p, net) && Hold(rs, p'.items) && readfds.bits == p'.bits
    ensures sel.correction == old(sel.correction) + |p.bits| - |p'.bits|
    ensures sent == SentOn(v, p.bits, net)
    ensures Core.Standing(rs[i]) == Core.Count(old(Core.Standing(rs[i])), Tells(v, p.bits, net))
    ensures forall j {:trigger rs[j]} :: 0 <= j < |rs| && j != i ==> Core.Standing(rs[j]) == old(Core.Standing(rs[j]))
  {
    hide Conversed, SentOn, Tells, Core.Count, Connections, Distinct, After, Handle;
    p' := PassOver(v, i, p, net);
    sent := HandleRecord(sel, rs[i], readfds, net, v);
    forall j | 0 <= j < |rs| && j != i
      ensures rs[j].comfds.Valid() && rs[j].comfds.Items() == p.items[j]
    {
      assert rs[j].comfds != rs[i].comfds;
    }
    assert readfds.bits == p'.bits && rs[i].comfds.Items() == p'.items[i] by { PassOverIs(v, i, p, net); }
  }

  lemma PassOverIs(v: View, i: nat, p: Pass, net: Net)
    requires i < |p.items|
    ensures PassOver(v, i, p, net) == Pass(Handle(v, p.bits, net), p.items[i := After(v, p.bits, net)])
  {
  }

  /** and how records and ports stand. */
  method HandleAt(sel: Selector, rs: seq<Record>, i: nat, readfds: FdSet, net: Net, ghost v: View, ghost p: Pass,
                  ghost ports: set<Port>, ghost lists: set<List<int>>, ghost sos: seq<(Status, Flags)>, ghost sems: seq<int>)
    returns (sent: seq<Sent>, ghost p': Pass)
    requires i < |rs| && Different(rs) && Within(rs, ports, lists) && Hold(rs, p.items) && readfds.bits == p.bits
    requires v == ViewOf(rs[i]) && Distinct(Connections(v, p.bits, net)) && Core.Stands(rs, sos, sems)
    modifies sel`correction, readfds, rs`transfer, ports`transfer, lists
    ensures p' == PassOver(v, i, p, net) && Hold(rs, p'.items) && readfds.bits == p'.bits
    ensures sel.correction == old(sel.correction) + |p.bits| - |p'.bits|
    ensures sent == SentOn(v, p.bits, net)
    ensures |sos| == |rs| && Core.Stands(rs, sos[i := Core.Count(sos[i], Tells(v, p.bits, net))], sems)
  {
    hide SentOn, Tells, Core.Count, Core.Standing, Connections, Distinct, PassOver, Different, Within, Hold;
    sent, p' := HandleOne(sel, rs, i, readfds, net, v, p, ports, lists);
  }

  /** and what else the records are. */
  method HandleNext(sel: Selector, rs: seq<Record>, i: nat, readfds: FdSet, net: Net, ghost vs: seq<View>, ghost p: Pass,
                    ghost ports: set<Port>, ghost lists: set<List<int>>, ghost sos: seq<(Status, Flags)>, ghost sems: seq<int>)
    returns (sent: seq<Sent>, ghost p': Pass)
    requires i < |rs| && Different(rs) && Within(rs, ports, lists) && Hold(rs, p.items) && readfds.bits == p.bits
    requires Constant(rs, vs) && vs[i] == ViewOf(rs[i]) && Distinct(Connections(vs[i], p.bits, net)) && Core.Stands(rs, sos, sems)
    modifies sel`correction, readfds, rs`transfer, ports`transfer, lists
    ensures Constant(rs, vs) && p' == PassOver(vs[i], i, p, net) && Hold(rs, p'.items) && readfds.bits == p'.bits
    ensures sel.correction == old(sel.correction) + |p.bits| - |p'.bits|
    ensures sent == SentOn(vs[i], p.bits, net)
    ensures |sos| == |rs| && Core.Stands(rs, sos[i := Core.Count(sos[i], Tells(vs[i], p.bits, net))], sems)
  {
    hide SentOn, Tells, Core.Count, Core.Stands, Connections, Distinct, PassOver, Different, Within, Hold, List.Valid, List.Items;
    sent, p' := HandleAt(sel, rs, i, readfds, net, vs[i], p, ports, lists, sos, sems);
  }

  method HandleConnAll(sel: Selector, rs: seq<Record>, readfds: FdSet, net: nat -> Net, ghost vs: seq<View>,
                       ghost ports: set<Port>, ghost lists: set<List<int>>, ghost sos: seq<(Status, Flags)>, ghost sems: seq<int>)
    returns (sent: seq<Sent>, ghost p: Pass)
    requires Different(rs) && ListsValid(rs) && Shows(rs, vs) && NewOnes(vs, |vs|, net) && Within(rs, ports, lists)
    requires Core.Stands(rs, sos, sems)
    modifies sel`correction, readfds, rs`transfer, ports`transfer, lists
    ensures p == PassTo(vs, |vs|, Pass(old(readfds.bits), Comfds(vs)), net)
    ensures readfds.bits == p.bits && Hold(rs, p.items)
    ensures sel.correction == old(sel.correction) + |old(readfds.bits)| - |readfds.bits|
    ensures sent == SentBy(vs, |vs|, old(readfds.bits), net)
    ensures |sos| == |vs| && Core.Stands(rs, ToldBy(vs, |vs|, old(readfds.bits), net, sos), sems)
  {
    hide NewOnes, SentOn, Tells, Core.Stands, Different, Within, Connections, Distinct, ToldBy, List.Valid, List.Items;
    ConstantIs(rs, vs);
    hide Constant;
    ghost var bits, p0 := readfds.bits, Pass(readfds.bits, Comfds(vs));
    p, sent := p0, [];
    ToldStart(rs, vs, bits, net, sos, sems);
    for i := 0 to |rs|
      invariant p == PassTo(vs, i, p0, net) && sent == SentBy(vs, i, bits, net)
      invariant readfds.bits == p.bits && Hold(rs, p.items)
      invariant Core.Stands(rs, ToldBy(vs, i, bits, net, sos), sems) && Constant(rs, vs)
      invariant sel.correction == old(sel.correction) + |bits| - |p.bits|
    {
      PassAt(vs, bits, net, i);
      ToldStep(vs, i, bits, net, sos);
      ViewAt(rs, vs, i, p.items);
      var more;
      more, p := HandleNext(sel, rs, i, readfds, net(i), vs, p, ports, lists, ToldBy(vs, i, bits, net, sos), sems);
      sent := sent + more;
    }
  }

  /** What the pass does not change in the records. */
  ghost predicate Constant(rs: seq<Record>, vs: seq<View>)
    reads rs
  {
    |vs| == |rs| && forall i {:trigger rs[i]} :: 0 <= i < |rs| ==>
      && vs[i].fd == rs[i].fd && vs[i].shadowfd == rs[i].shadowfd && vs[i].comfd == rs[i].comfd && vs[i].port == rs[i].port
      && vs[i].monitoring == rs[i].monitoring && vs[i].blocking == rs[i].blocking
  }

  lemma ConstantIs(rs: seq<Record>, vs: seq<View>)
    requires Shows(rs, vs) && ListsValid(rs)
    ensures |vs| == |rs| && Constant(rs, vs) && Hold(rs, Comfds(vs))
  {
    hide List.Valid, List.Items;
  }

  lemma ViewAt(rs: seq<Record>, vs: seq<View>, i: nat, items: seq<seq<int>>)
    requires i < |rs| && Constant(rs, vs) && Hold(rs, items) && items[i] == vs[i].comfds
    ensures vs[i] == ViewOf(rs[i])
  {
  }

  lemma ToldStart(rs: seq<Record>, vs: seq<View>, bits: set<int>, net: nat -> Net, sos: seq<(Status, Flags)>, sems: seq<int>)
    requires Core.Stands(rs, sos, sems) && |vs| == |rs|
    ensures |sos| == |vs| && ToldBy(vs, 0, bits, net, sos) == sos
  {
  }

  lemma {:induction false} ToldStep(vs: seq<View>, i: nat, bits: set<int>, net: nat -> Net, sos: seq<(Status, Flags)>)
    requires i < |vs| == |sos|
    ensures var p := PassTo(vs, i, Pass(bits, Comfds(vs)), net);
            && ToldBy(vs, i + 1, bits, net, sos)
               == ToldBy(vs, i, bits, net, sos)[i := Core.Count(ToldBy(vs, i, bits, net, sos)[i], Tells(vs[i], p.bits, net(i)))]
            && SentBy(vs, i + 1, bits, net) == SentBy(vs, i, bits, net) + SentOn(vs[i], p.bits, net(i))
            && p.items[i] == vs[i].comfds
  {
    hide Tells, SentOn, Core.Count;
    PassIs(vs, i, bits, net, i);
  }

  lemma PostAllStep(vs: seq<View>, bits: set<int>, i: nat)
    requires i < |vs|
    ensures PostAll(vs[..i + 1], bits) == Post(vs[i], PostAll(vs[..i], bits))
  {
    assert vs[..i + 1][..i] == vs[..i];
  }

  ghost predicate Names(rs: seq<Record>, vs: seq<View>)
    reads rs
  {
    |vs| == |rs| && forall i {:trigger rs[i]} :: 0 <= i < |rs| ==> rs[i].fd == vs[i].fd && rs[i].shadowfd == vs[i].shadowfd
  }

  /** The pass that gives the caller its descriptors back and every lock that is held. */
  method PostSelectAll(sel: Selector, rs: seq<Record>, readfds: FdSet?, ghost vs: seq<View>, ghost ports: set<Port>,
                       ghost lists: set<List<int>>, ghost sos: seq<(Status, Flags)>, ghost sems: seq<int>)
    requires Different(rs) && Names(rs, vs) && Within(rs, ports, lists) && Core.Stands(rs, sos, sems)
    modifies readfds, rs`locked, ports`fdSem
    ensures readfds != null ==> readfds.bits == PostAll(vs, old(Bits(readfds)))
    ensures |sos| == |sems| && Core.Stands(rs, Core.Given(sos), Core.Posted(sos, sems))
  {
    hide Linked;
    ghost var bits := Bits(readfds);
    assert vs[..|vs|] == vs;
    for i := 0 to |rs|
      invariant readfds != null ==> readfds.bits == PostAll(vs[..i], bits)
      invariant forall j {:trigger rs[j]} :: i <= j < |rs| ==> rs[j].shared.fdSem == sems[j] && rs[j].locked == sos[j].1.locked
      invariant forall j {:trigger rs[j]} :: 0 <= j < i ==>
        !rs[j].locked && rs[j].shared.fdSem == sems[j] + if sos[j].1.locked then 1 else 0
    {
      PostAllStep(vs, bits, i);
      assert rs[i].fd == vs[i].fd && rs[i].shadowfd == vs[i].shadowfd;
      sel.PostSelect(rs[i], readfds);
    }
  }

  // ---------------------------------------------------------------- one round

  /** What the kernel answers: an error, or which descriptors of the three sets are ready. */
  datatype Answer = Failure | Ready(read: set<int>, write: set<int>, except: set<int>)

  /** What the rest of the world does in one round: what the other processes left in each port's
      memory by the state handler and by the translation, the kernel's answer, and what happens
      on each record's internal connections. */
  datatype Round = Round(entry: nat -> Seen, seen: nat -> Seen, kernel: Answer, net: nat -> Net)

  function Marks(bits: set<int>, maxFds: int, ready: set<int>): set<int> {
    Kernel(Watch(bits, maxFds, false), ready)
  }

  /** Which records get the lock. */
  ghost function Gots(vs: seq<View>, w: Watch, seen: nat -> Seen): (r: seq<bool>)
    ensures |r| == |vs| && forall i :: 0 <= i < |vs| ==> r[i] == Takes(vs, w, seen, i)
  {
    seq(|vs|, i requires 0 <= i < |vs| => Takes(vs, w, seen, i))
  }

  /** The first pass, and how it leaves records, ports and semaphores. */
  method Begin(sel: Selector, rs: seq<Record>, readfds: FdSet, seen: nat -> Seen, ghost vs: seq<View>, ghost ports: set<Port>,
               ghost lists: set<List<int>>, ghost sos: seq<(Status, Flags)>, ghost sems: seq<int>)
    requires Different(rs) && Shows(rs, vs) && Within(rs, ports, lists) && ListsValid(rs) && Core.Stands(rs, sos, sems)
    modifies sel`maxFds, sel`transfer, readfds, rs`locked, ports
    ensures Shows(rs, vs) && ListsValid(rs)
    ensures sel.Watched(readfds.bits) == PreAll(vs, old(sel.Watched(readfds.bits)), seen)
    ensures var gots := Gots(vs, old(sel.Watched(readfds.bits)), seen);
            |sos| == |gots| && Core.Stands(rs, Core.Taken(sos, seen, gots), Core.Levels(seen, gots))
  {
    hide Takes, PreAll, List.Valid, List.Items;
    PreSelectAll(sel, rs, readfds, seen, vs, ports, lists);
  }

  /** The read set that the kernel is asked about. When every descriptor is used once, it holds the
      shadow descriptor of each record that the caller listens to and that monitors; that of a
      blocking socket, in a call that has seen a transfer by then, only if it has just got the lock. */
  method Translate(sel: Selector, rs: seq<Record>, readfds: FdSet, seen: nat -> Seen, ghost vs: seq<View>, ghost ports: set<Port>,
                   ghost lists: set<List<int>>, ghost sos: seq<(Status, Flags)>, ghost sems: seq<int>)
    requires Different(rs) && Shows(rs, vs) && Within(rs, ports, lists) && ListsValid(rs) && Core.Stands(rs, sos, sems)
    modifies sel`maxFds, sel`transfer, readfds, rs`locked, ports
    ensures Shows(rs, vs) && ListsValid(rs)
    ensures sel.Watched(readfds.bits) == SniffAll(vs, PreAll(vs, old(sel.Watched(readfds.bits)), seen))
    ensures var gots := Gots(vs, old(sel.Watched(readfds.bits)), seen);
            |sos| == |gots| && Core.Stands(rs, Core.Taken(sos, seen, gots), Core.Levels(seen, gots))
    ensures Apart(vs, old(readfds.bits), Quiet()) && !old(sel.transfer) ==> forall i {:trigger rs[i]} :: 0 <= i < |rs| ==>
      var transfer := Transferring(vs, old(readfds.bits), seen, i);
      (rs[i].shadowfd in readfds.bits <==>
         && rs[i].fd in old(readfds.bits) && rs[i].monitoring
         && (rs[i].blocking && transfer ==> rs[i].locked && rs[i].shared.fdSem == seen(i).fdSem - 1))
  {
    hide PreAll, SniffAll, Apart, Transferring, Different, Within;
    ghost var w := sel.Watched(readfds.bits);
    Begin(sel, rs, readfds, seen, vs, ports, lists, sos, sems);
    SniffConnAll(sel, rs, readfds, vs);
    if Apart(vs, w.bits, Quiet()) && !w.transfer {
      hide Core.Taken, Core.Levels;
      ghost var gots := Gots(vs, w, seen);
      AdmittedHaveIt(rs, vs, w, seen, sos, gots);
    }
  }

  /** Who is admitted has the lock, if it asked for it. */
  lemma AdmittedHaveIt(rs: seq<Record>, vs: seq<View>, w: Watch, seen: nat -> Seen, sos: seq<(Status, Flags)>, gots: seq<bool>)
    requires Apart(vs, w.bits, Quiet()) && !w.transfer && Shows(rs, vs) && gots == Gots(vs, w, seen) && |sos| == |gots|
    requires Core.Stands(rs, Core.Taken(sos, seen, gots), Core.Levels(seen, gots))
    ensures forall i {:trigger rs[i]} :: 0 <= i < |rs| ==>
      var transfer := Transferring(vs, w.bits, seen, i);
      (rs[i].shadowfd in SniffAll(vs, PreAll(vs, w, seen)).bits <==>
         && rs[i].fd in w.bits && rs[i].monitoring
         && (rs[i].blocking && transfer ==> rs[i].locked && rs[i].shared.fdSem == seen(i).fdSem - 1))
  {
    hide PreAll, SniffAll, Apart, Transferring, Takes;
    forall i | 0 <= i < |rs|
      ensures var transfer := Transferring(vs, w.bits, seen, i);
              (rs[i].shadowfd in SniffAll(vs, PreAll(vs, w, seen)).bits <==>
                 && rs[i].fd in w.bits && rs[i].monitoring
                 && (rs[i].blocking && transfer ==> rs[i].locked && rs[i].shared.fdSem == seen(i).fdSem - 1))
    {
      AskedAbout(vs, w.bits, w.maxFds, seen, i);
      TakesIs(vs, w.bits, w.maxFds, seen, i);
    }
  }

  /** The read set and the records after the kernel's answer. */
  method TranslateBack(sel: Selector, rs: seq<Record>, readfds: FdSet, net: nat -> Net, ghost vs: seq<View>, ghost ports: set<Port>,
                       ghost lists: set<List<int>>, ghost sos: seq<(Status, Flags)>, ghost sems: seq<int>)
    returns (sent: seq<Sent>, ghost p: Pass)
    requires Different(rs) && Shows(rs, vs) && Within(rs, ports, lists) && ListsValid(rs) && NewOnes(vs, |vs|, net)
    requires Core.Stands(rs, sos, sems)
    modifies sel`correction, readfds, rs`transfer, rs`locked, ports`transfer, ports`fdSem, lists
    ensures p == PassTo(vs, |vs|, Pass(old(readfds.bits), Comfds(vs)), net)
    ensures readfds.bits == PostAll(vs, p.bits) && Hold(rs, p.items)
    ensures sel.correction == old(sel.correction) + |old(readfds.bits)| - |p.bits|
    ensures sent == SentBy(vs, |vs|, old(readfds.bits), net)
    ensures |sos| == |sems| == |vs|
    ensures var end := ToldBy(vs, |vs|, old(readfds.bits), net, sos);
            Core.Stands(rs, Core.Given(end), Core.Posted(end, sems))
  {
    hide List.Valid, NewOnes, HandleAll, PostAll, SentBy, ToldBy, Core.Stands;
    hide PassTo;
    StandsMany(rs, sos, sems);
    assert Names(rs, vs);
    ghost var bits := readfds.bits;
    sent, p := HandleConnAll(sel, rs, readfds, net, vs, ports, lists, sos, sems);
    assert Names(rs, vs);
    PostSelectAll(sel, rs, readfds, vs, ports, lists, ToldBy(vs, |vs|, bits, net, sos), sems);
  }

  lemma StandsMany(rs: seq<Record>, sos: seq<(Status, Flags)>, sems: seq<int>)
    requires Core.Stands(rs, sos, sems)
    ensures |sos| == |sems| == |rs|
  {
  }

  lemma PassBits(vs: seq<View>, p: Pass, bits: set<int>, net: nat -> Net)
    requires p == PassTo(vs, |vs|, Pass(bits, Comfds(vs)), net)
    ensures p.bits == HandleAll(vs, bits, net)
  {
    BitsOfPass(vs, |vs|, bits, net);
    assert vs[..|vs|] == vs;
  }

  /** The kernel leaves the ready ones among the descriptors below `maxFds`, and counts them. */
  method AskKernel(s: FdSet?, maxFds: int, ready: set<int>) returns (n: nat)
    modifies s
    ensures Bits(s) == Marks(old(Bits(s)), maxFds, ready) && n == |Bits(s)|
  {
    n := 0;
    if s != null {
      s.bits := Marks(s.bits, maxFds, ready);
      n := |s.bits|;
    }
  }

  /** The number of descriptors that the kernel is asked to test. */
  function Tested(vs: seq<View>, read: set<int>, nfds: int, seen: nat -> Seen): int {
    SniffAll(vs, PreAll(vs, Watch(read, nfds, false), seen)).maxFds
  }

  /** How records and ports stand when an answered round is over, but for the locks. */
  ghost function EndOf(vs: seq<View>, read: set<int>, nfds: int, round: Round, sos: seq<(Status, Flags)>): (r: seq<(Status, Flags)>)
    requires round.kernel.Ready? && |sos| == |vs|
    ensures |r| == |vs|
  {
    ToldBy(vs, |vs|, Marked(vs, read, nfds, round.seen, round.kernel.read), round.net,
           Core.Taken(sos, round.seen, Gots(vs, Watch(read, nfds, false), round.seen)))
  }

  method AskThree(readfds: FdSet, writefds: FdSet?, exceptfds: FdSet?, maxFds: int, kernel: Answer) returns (n: int)
    requires readfds != writefds && readfds != exceptfds && (writefds != null ==> writefds != exceptfds)
    modifies readfds, writefds, exceptfds
    ensures kernel.Failure? ==>
      && n == -1 && readfds.bits == old(readfds.bits)
      && Bits(writefds) == old(Bits(writefds)) && Bits(exceptfds) == old(Bits(exceptfds))
    ensures kernel.Ready? ==>
      && readfds.bits == Marks(old(readfds.bits), maxFds, kernel.read)
      && Bits(writefds) == Marks(old(Bits(writefds)), maxFds, kernel.write)
      && Bits(exceptfds) == Marks(old(Bits(exceptfds)), maxFds, kernel.except)
      && n == |readfds.bits| + |Bits(writefds)| + |Bits(exceptfds)|
  {
    if kernel.Failure? {
      return -1;
    }
    var r := AskKernel(readfds, maxFds, kernel.read);
    var w := AskKernel(writefds, maxFds, kernel.write);
    var e := AskKernel(exceptfds, maxFds, kernel.except);
    n := r + w + e;
  }

  /** Up to the kernel's answer. */
  method AskAll(sel: Selector, rs: seq<Record>, nfds: int, readfds: FdSet, writefds: FdSet?, exceptfds: FdSet?, round: Round,
                ghost vs: seq<View>, ghost ports: set<Port>, ghost lists: set<List<int>>,
                ghost sos: seq<(Status, Flags)>, ghost sems: seq<int>)
    returns (n: int)
    requires Different(rs) && Shows(rs, vs) && Within(rs, ports, lists) && ListsValid(rs) && Core.Stands(rs, sos, sems)
    requires readfds != writefds && readfds != exceptfds && (writefds != null ==> writefds != exceptfds)
    modifies sel`maxFds, sel`transfer, readfds, writefds, exceptfds, rs`locked, ports
    ensures Shows(rs, vs) && ListsValid(rs)
    ensures var gots := Gots(vs, Watch(old(readfds.bits), nfds, false), round.seen);
            |sos| == |gots| && Core.Stands(rs, Core.Taken(sos, round.seen, gots), Core.Levels(round.seen, gots))
    ensures round.kernel.Failure? ==>
      n == -1 && Bits(writefds) == old(Bits(writefds)) && Bits(exceptfds) == old(Bits(exceptfds))
    ensures round.kernel.Ready? ==>
      && readfds.bits == Marked(vs, old(readfds.bits), nfds, round.seen, round.kernel.read)
      && Bits(writefds) == Marks(old(Bits(writefds)), Tested(vs, old(readfds.bits), nfds, round.seen), round.kernel.write)
      && Bits(exceptfds) == Marks(old(Bits(exceptfds)), Tested(vs, old(readfds.bits), nfds, round.seen), round.kernel.except)
      && n == |readfds.bits| + |Bits(writefds)| + |Bits(exceptfds)|
  {
    hide Gots;
    hide Different, Within, PreAll, SniffAll, List.Valid, List.Items, Takes, Asks, Core.Stands, Apart, Transferring;
    sel.maxFds, sel.transfer := nfds, false;
    ghost var gots := Gots(vs, sel.Watched(readfds.bits), round.seen);
    Translate(sel, rs, readfds, round.seen, vs, ports, lists, sos, sems);
    hide Marks;
    n := AskThree(readfds, writefds, exceptfds, sel.maxFds, round.kernel);
  }

  /** What one round of a call with a read set makes of the three sets and of the records. */
  method OneRound(sel: Selector, rs: seq<Record>, nfds: int, readfds: FdSet, writefds: FdSet?, exceptfds: FdSet?, round: Round,
                  ghost vs: seq<View>, ghost ports: set<Port>, ghost lists: set<List<int>>,
                  ghost sos: seq<(Status, Flags)>, ghost sems: seq<int>)
    returns (result: int, sent: seq<Sent>, ghost p: Pass)
    requires Different(rs) && Shows(rs, vs) && Within(rs, ports, lists) && ListsValid(rs)
    requires NewOnes(vs, |vs|, round.net) && Core.Stands(rs, sos, sems)
    requires readfds != writefds && readfds != exceptfds && (writefds != null ==> writefds != exceptfds)
    modifies sel, readfds, writefds, exceptfds, rs`locked, rs`transfer, ports, lists
    ensures |sos| == |sems| == |vs|
    ensures round.kernel.Failure? ==>
      && result == -1 && sent == [] && sel.correction == old(sel.correction)
      && Bits(writefds) == old(Bits(writefds)) && Bits(exceptfds) == old(Bits(exceptfds))
      && var gots := Gots(vs, Watch(old(readfds.bits), nfds, false), round.seen);
         Core.Stands(rs, Core.Taken(sos, round.seen, gots), Core.Levels(round.seen, gots))
    ensures round.kernel.Ready? ==>
      var marked := Marked(vs, old(readfds.bits), nfds, round.seen, round.kernel.read);
      && p == PassTo(vs, |vs|, Pass(marked, Comfds(vs)), round.net)
      && readfds.bits == PostAll(vs, p.bits) && Hold(rs, p.items)
      && Bits(writefds) == Marks(old(Bits(writefds)), Tested(vs, old(readfds.bits), nfds, round.seen), round.kernel.write)
      && Bits(exceptfds) == Marks(old(Bits(exceptfds)), Tested(vs, old(readfds.bits), nfds, round.seen), round.kernel.except)
      && result == |p.bits| + |Bits(writefds)| + |Bits(exceptfds)| - old(sel.correction) && sel.correction == 0
      && sent == SentBy(vs, |vs|, marked, round.net)
      && var end := EndOf(vs, old(readfds.bits), nfds, round, sos);
         Core.Stands(rs, Core.Given(end), Core.Posted(end, Core.Levels(round.seen, Gots(vs, Watch(old(readfds.bits), nfds, false), round.seen))))
  {
    hide List.Valid;
    hide Different, Within, PassTo, PostAll, NewOnes, Marked, Tested, Marks, Shows, ListsValid, Gots;
    hide Core.Stands, Core.Taken, Core.Levels, Core.Given, Core.Posted, ToldBy, SentBy;
    StandsMany(rs, sos, sems);
    ShowsMany(rs, vs);
    p, sent := Pass({}, []), [];
    ghost var gots := Gots(vs, Watch(readfds.bits, nfds, false), round.seen);
    result := AskAll(sel, rs, nfds, readfds, writefds, exceptfds, round, vs, ports, lists, sos, sems);
    if round.kernel.Failure? {
      return -1, sent, p;
    }
    sent, p := TranslateBack(sel, rs, readfds, round.net, vs, ports, lists, Core.Taken(sos, round.seen, gots), Core.Levels(round.seen, gots));
    result := result - sel.correction;
    sel.correction := 0;
  }

  lemma ShowsMany(rs: seq<Record>, vs: seq<View>)
    requires Shows(rs, vs)
    ensures |vs| == |rs|
  {
  }

  /** The read set of the round is that of the specification, and its count is exact when
      descriptors are used once. */
  lemma RoundIsExact(vs: seq<View>, read: set<int>, nfds: int, round: Round, p: Pass)
    requires round.kernel.Ready?
    requires p == PassTo(vs, |vs|, Pass(Marked(vs, read, nfds, round.seen, round.kernel.read), Comfds(vs)), round.net)
    ensures PostAll(vs, p.bits) == Final(vs, read, nfds, round.seen, round.kernel.read, round.net)
    ensures Apart(vs, read, round.net) && (forall x :: x in read ==> x < nfds) ==> |PostAll(vs, p.bits)| == |p.bits|
  {
    hide Apart, PostAll, Marked, PassTo, HandleAll, Comfds;
    PassBits(vs, p, Marked(vs, read, nfds, round.seen, round.kernel.read), round.net);
    if Apart(vs, read, round.net) && forall x :: x in read ==> x < nfds {
      CountIsExact(vs, read, nfds, round.seen, round.kernel.read, round.net);
    }
  }
}
