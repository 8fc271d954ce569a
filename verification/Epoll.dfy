/** The wrappers around `epoll_ctl` and `epoll_wait`, in place on the kernel's interest list, on the
    records and on the array of events. */
module Epoll {
  import opened Steps
  import opened State
  import opened EpollSpec
  import Select
  import SelectSpec
  import Core

  /** One epoll instance in the kernel. */
  class Instance {
    var interest: Interest

    method Ctl(op: Op, d: int, ev: Event) returns (rc: int)
      modifies this
      ensures (interest, rc) == Control(old(interest), op, d, ev)
    {
      var answer := Control(interest, op, d, ev);
      interest, rc := answer.0, answer.1;
    }
  }

  ghost function EntryOf(r: Record): Entry
    reads r
  {
    Entry(r.fd, r.shadowfd, r.ev)
  }

  /** `es` is what the passes see in the records. */
  ghost predicate Shows(rs: seq<Record>, es: seq<Entry>)
    reads rs
  {
    |es| == |rs| && forall i {:trigger rs[i]} :: 0 <= i < |rs| ==>
      es[i].fd == rs[i].fd && es[i].shadowfd == rs[i].shadowfd && es[i].ev == rs[i].ev
  }

  /** `epoll_ctl`: the event of a bound socket is stored, and the operation goes to its shadow. */
  method EpollCtl(instance: Instance, binds: List<Record>, op: Op, fd: int, ev: Event, ghost rs: seq<Record>) returns (rc: int)
    requires binds.Valid() && rs == binds.Items() && Distinct(rs)
    modifies instance, rs`ev
    ensures var b := FirstIndex(Fds(rs), fd);
            if b < |rs| then
              && (EntryOf(rs[b]), instance.interest, rc) == ControlBound(old(EntryOf(rs[b])), old(instance.interest), op, ev)
              && rs[b].ev == (if op.CtlDel? then Event(0, 0) else ev)
              && (instance.interest, rc) == Control(old(instance.interest), op, rs[b].shadowfd, ev)
              && forall i :: 0 <= i < |rs| && i != b ==> rs[i].ev == old(rs[i].ev)
            else
              && (instance.interest, rc) == Control(old(instance.interest), op, fd, ev)
              && forall i :: 0 <= i < |rs| ==> rs[i].ev == old(rs[i].ev)
  {
    hide Linked, ItemsOf, List.Valid, List.Items, FirstIndex;
    var r := SearchFd(binds, fd);
    if r == null {
      rc := instance.Ctl(op, fd, ev);
      return;
    }
    if op.CtlAdd? || op.CtlMod? {
      r.ev := ev;
    } else {
      r.ev := Event(0, 0);
    }
    rc := instance.Ctl(op, r.shadowfd, ev);
  }

  /** `dsu_epoll_shadowfd`. The lock is tried during a transfer of a registered blocking socket;
      without it the socket is not watched. */
  method ShadowFd(instance: Instance, r: Record, seen: Seen)
    modifies instance, r`locked, r.shared
    ensures instance.interest == ShadowPass(EntryOf(r), old(instance.interest),
      r.monitoring && (seen.status.transfer > 0 && r.blocking ==> seen.fdSem > 0))
    ensures r.shared.Status() == seen.status
    ensures var got := r.monitoring && r.ev.events != 0 && seen.status.transfer > 0 && r.blocking && seen.fdSem > 0;
            && r.shared.fdSem == seen.fdSem - (if got then 1 else 0)
            && (r.locked <==> old(r.locked) || got)
  {
    r.shared.Observe(seen);
    if r.ev.events != 0 {
      var _ := instance.Ctl(CtlDel, r.fd, Event(0, 0));
    }
    var ev := Coded(r.ev, r.shadowfd);
    if r.monitoring && r.ev.events != 0 {
      if r.shared.transfer > 0 && r.blocking {
        var acquired := Core.TryLockFd(r);
        if acquired {
          var _ := instance.Ctl(CtlAdd, r.shadowfd, ev);
        }
      } else {
        var _ := instance.Ctl(CtlAdd, r.shadowfd, ev);
      }
    }
  }

  /** `dsu_epoll_originalfd`. */
  method OriginalFd(instance: Instance, r: Record)
    modifies instance
    ensures instance.interest == OriginalPass(EntryOf(r), old(instance.interest))
  {
    if r.ev.events != 0 {
      var _ := instance.Ctl(CtlDel, r.shadowfd, Event(0, 0));
      var _ := instance.Ctl(CtlAdd, r.fd, r.ev);
    }
  }

  const EPOLLIN := 1

  /** `dsu_epoll_internal_conn`; `fill` is what the upper half of the data happens to be. */
  method InternalConn(instance: Instance, r: Record, fill: int, ghost ds: seq<int>)
    requires r.comfds.Valid() && ds == (if r.monitoring then [r.comfd] else []) + r.comfds.Items()
    modifies instance
    ensures instance.interest == AddAll(old(instance.interest), ds, |ds|, Event(EPOLLIN, fill))
  {
    hide List.Valid, List.Items, Coded;
    ghost var m, k := instance.interest, if r.monitoring then 1 else 0;
    var ev := Event(EPOLLIN, fill);
    if r.monitoring {
      var _ := instance.Ctl(CtlAdd, r.comfd, Coded(ev, r.comfd));
    }
    assert instance.interest == AddAll(m, ds, k, ev) by {
      assert AddAll(m, ds, 0, ev) == m;
    }
    var cs := r.comfds.Walk();
    for i := 0 to |cs|
      invariant instance.interest == AddAll(m, ds, k + i, ev)
    {
      assert ds[k + i] == cs[i];
      var _ := instance.Ctl(CtlAdd, cs[i], Coded(ev, cs[i]));
    }
  }

  // ---------------------------------------------------------------- all records

  /** `dsu_pre_epoll`, first half: the shadow descriptors of all records. */
  method ShadowFds(instance: Instance, rs: seq<Record>, seen: nat -> Seen, ghost es: seq<Entry>, ghost admitted: nat -> bool,
                   ghost ports: set<Port>)
    requires Shows(rs, es) && forall i :: 0 <= i < |rs| ==> rs[i].shared in ports
    requires forall i, j :: 0 <= i < j < |rs| ==> rs[i] != rs[j] && rs[i].shared != rs[j].shared
    requires forall i {:trigger rs[i]} :: 0 <= i < |rs| ==>
      admitted(i) == (rs[i].monitoring && (seen(i).status.transfer > 0 && rs[i].blocking ==> seen(i).fdSem > 0))
    modifies instance, rs`locked, ports
    ensures instance.interest == ShadowAll(es, |es|, old(instance.interest), admitted)
    ensures forall i {:trigger rs[i]} :: 0 <= i < |rs| ==>
      && rs[i].shared.Status() == seen(i).status
      && rs[i].shared.fdSem == seen(i).fdSem - (if Got(rs[i], seen(i)) then 1 else 0)
      && (rs[i].locked <==> old(rs[i].locked) || Got(rs[i], seen(i)))
  {
    ghost var m := instance.interest;
    for i := 0 to |rs|
      invariant instance.interest == ShadowAll(es, i, m, admitted)
      invariant forall j {:trigger rs[j]} :: i <= j < |rs| ==> rs[j].locked == old(rs[j].locked)
      invariant forall j {:trigger rs[j]} :: 0 <= j < i ==>
        && rs[j].shared.Status() == seen(j).status
        && rs[j].shared.fdSem == seen(j).fdSem - (if Got(rs[j], seen(j)) then 1 else 0)
        && (rs[j].locked <==> old(rs[j].locked) || Got(rs[j], seen(j)))
    {
      assert es[i] == EntryOf(rs[i]);
      ShadowFd(instance, rs[i], seen(i));
    }
  }

  /** The record gets the lock of its port in this call. */
  ghost predicate Got(r: Record, seen: Seen)
    reads r
  {
    r.monitoring && r.ev.events != 0 && seen.status.transfer > 0 && r.blocking && seen.fdSem > 0
  }

  /** The user's descriptors of all records come back. */
  method OriginalFds(instance: Instance, rs: seq<Record>, ghost es: seq<Entry>)
    requires Shows(rs, es)
    modifies instance
    ensures instance.interest == OriginalAll(es, |es|, old(instance.interest))
  {
    ghost var m := instance.interest;
    for i := 0 to |rs|
      invariant instance.interest == OriginalAll(es, i, m)
    {
      assert es[i] == EntryOf(rs[i]);
      OriginalFd(instance, rs[i]);
    }
  }

  function Concat(dss: seq<seq<int>>, n: nat): seq<int>
    requires n <= |dss|
  {
    if n == 0 then [] else Concat(dss, n - 1) + dss[n - 1]
  }

  lemma {:induction false} AddAllAppend(m: Interest, a: seq<int>, b: seq<int>, n: nat, ev: Event)
    requires n <= |b|
    ensures AddAll(m, a + b, |a| + n, ev) == AddAll(AddAll(m, a, |a|, ev), b, n, ev)
  {
    if n == 0 {
      AddAllPrefix(m, a, b, |a|, ev);
    } else {
      AddAllAppend(m, a, b, n - 1, ev);
      assert (a + b)[|a| + n - 1] == b[n - 1];
    }
  }

  lemma {:induction false} AddAllPrefix(m: Interest, a: seq<int>, b: seq<int>, n: nat, ev: Event)
    requires n <= |a|
    ensures AddAll(m, a + b, n, ev) == AddAll(m, a, n, ev)
  {
    if n > 0 { AddAllPrefix(m, a, b, n - 1, ev); }
  }

  ghost predicate Watches(rs: seq<Record>, dss: seq<seq<int>>)
    reads rs, set r | r in rs :: r.comfds
  {
    |dss| == |rs| && forall i {:trigger rs[i]} :: 0 <= i < |rs| ==>
      rs[i].comfds.Valid() && dss[i] == (if rs[i].monitoring then [rs[i].comfd] else []) + rs[i].comfds.Items()
  }

  /** `dsu_pre_epoll`, second half: the internal descriptors of all records. */
  method InternalConns(instance: Instance, rs: seq<Record>, fill: int, ghost dss: seq<seq<int>>)
    requires Watches(rs, dss)
    modifies instance
    ensures var ds := Concat(dss, |dss|);
            instance.interest == AddAll(old(instance.interest), ds, |ds|, Event(EPOLLIN, fill))
  {
    ghost var m, ev := instance.interest, Event(EPOLLIN, fill);
    for i := 0 to |rs|
      invariant instance.interest == AddAll(m, Concat(dss, i), |Concat(dss, i)|, ev)
    {
      AddAllAppend(m, Concat(dss, i), dss[i], |dss[i]|, ev);
      assert Watches(rs, dss) && rs[i].comfds.Valid();
      InternalConn(instance, rs[i], fill, dss[i]);
    }
  }

  // ---------------------------------------------------------------- the reported events

  ghost predicate IsInternalSet(rs: seq<Record>, internal: set<int>)
    reads rs, set r | r in rs :: r.comfds
  {
    forall d {:trigger d in internal} {:trigger Internally(rs, d)} :: d in internal <==> Internally(rs, d)
  }

  /** The inner loop of `dsu_epoll_correct_events`. */
  method ShiftEvents(events: array<Event>, i: nat, n: nat)
    requires i < n <= events.Length
    modifies events
    ensures forall j :: 0 <= j < i ==> events[j] == old(events[j])
    ensures events[i..n - 1] == old(events[i + 1..n])
  {
    ghost var was := events[..];
    for j := i to n - 1
      invariant forall k :: 0 <= k < i || j <= k < events.Length ==> events[k] == was[k]
      invariant events[i..j] == was[i + 1..j + 1]
    {
      events[j] := events[j + 1];
      assert events[i..j + 1] == events[i..j] + [was[j + 1]];
      assert was[i + 1..j + 2] == was[i + 1..j + 1] + [was[j + 1]];
    }
    assert was[i + 1..n] == old(events[i + 1..n]);
  }

  /** What an event of the application becomes. */
  method Restore(e: Event, binds: List<Record>, ghost es: seq<Entry>) returns (e': Event)
    requires binds.Valid() && Shows(binds.Items(), es)
    ensures e' == Restored(e, es)
  {
    assert Shadows(binds.Items()) == ShadowsIn(es);
    var r := SearchShadowFd(binds, DataFd(e.data));
    e' := e;
    if r != null && r.ev.events != 0 {
      e' := Event(e.events, r.ev.data);
    }
  }

  /** The bind list, as the correction of events looks at it. */
  ghost predicate Looks(binds: List<Record>, rs: seq<Record>, es: seq<Entry>, internal: set<int>)
    reads binds, rs, set r | r in rs :: r.comfds, set r | r in rs :: r.fds
  {
    && binds.Valid() && rs == binds.Items()
    && InnerValid(rs) && Shows(rs, es) && IsInternalSet(rs, internal)
  }

  /** What one event leaves. */
  function Piece(e: Event, internal: set<int>, es: seq<Entry>): seq<Event> {
    if DataFd(e.data) in internal then [] else [Restored(e, es)]
  }

  /** What is left to do, from the front. */
  function Rest(s: seq<Event>, internal: set<int>, es: seq<Entry>): seq<Event> {
    if s == [] then [] else Piece(s[0], internal, es) + Rest(s[1..], internal, es)
  }

  lemma {:induction false} RestIsCorrected(s: seq<Event>, k: nat, internal: set<int>, es: seq<Entry>)
    requires k <= |s|
    ensures Corrected(s, |s|, internal, es) == Corrected(s, k, internal, es) + Rest(s[k..], internal, es)
    decreases |s| - k
  {
    if k < |s| {
      RestIsCorrected(s, k + 1, internal, es);
      assert s[k..][0] == s[k] && s[k..][1..] == s[k + 1..];
    }
  }

  lemma RestStep(done: seq<Event>, rest: seq<Event>, internal: set<int>, es: seq<Entry>)
    requires rest != []
    ensures done + Rest(rest, internal, es) == done + Piece(rest[0], internal, es) + Rest(rest[1..], internal, es)
  {
  }

  /** One round of the loop of `dsu_epoll_correct_events`. */
  method CorrectOne(events: array<Event>, i: nat, n: nat, binds: List<Record>,
                    ghost rs: seq<Record>, ghost es: seq<Entry>, ghost internal: set<int>)
    returns (i': nat, n': nat)
    requires i < n <= events.Length && Looks(binds, rs, es, internal)
    modifies events
    ensures i' <= n' <= n && n' - i' == n - i - 1
    ensures events[..i'] == old(events[..i]) + Piece(old(events[i]), internal, es)
    ensures events[i'..n'] == old(events[i + 1..n])
  {
    hide Restored, List.Valid, InnerValid, Shows, Internally;
    ghost var e0, done, rest := events[i], events[..i], events[i + 1..n];
    var own := IsInternalConn(binds, DataFd(events[i].data));
    if own {
      ShiftEvents(events, i, n);
      i', n' := i, n - 1;
    } else {
      var e := Restore(events[i], binds, es);
      events[i] := e;
      i', n' := i + 1, n;
      assert events[..i + 1] == done + [e];
      assert events[i + 1..n] == rest;
    }
  }

  /** `dsu_epoll_correct_events`: internal events are removed by shifting the rest to the left, the
      others get their data back; the result is the number that is left. An error of the kernel is
      passed on. */
  method CorrectEvents(nfds: int, events: array<Event>, binds: List<Record>,
                       ghost rs: seq<Record>, ghost es: seq<Entry>, ghost internal: set<int>)
    returns (n: int)
    requires nfds <= events.Length && Looks(binds, rs, es, internal)
    modifies events
    ensures nfds <= 0 ==> n == nfds && events[..] == old(events[..])
    ensures nfds >= 0 ==>
      && n == |Corrected(old(events[..nfds]), nfds, internal, es)|
      && events[..n] == Corrected(old(events[..nfds]), nfds, internal, es)
  {
    n := nfds;
    if nfds <= 0 { return; }
    hide Piece, Rest, Corrected, Looks;
    ghost var s := events[..nfds];
    ghost var done, rest := [], s;
    var i := 0;
    while i < n
      invariant 0 <= i <= n <= nfds && events[..i] == done && events[i..n] == rest
      invariant done + Rest(rest, internal, es) == Rest(s, internal, es)
      decreases n - i
    {
      RestStep(done, rest, internal, es);
      assert events[i] == rest[0] && events[i + 1..n] == rest[1..];
      i, n := CorrectOne(events, i, n, binds, rs, es, internal);
      done, rest := done + Piece(rest[0], internal, es), rest[1..];
    }
    assert done == Rest(s, internal, es) == Corrected(s, nfds, internal, es) by {
      RestEnds(done, internal, es);
      RestIsCorrected(s, 0, internal, es);
      assert s[0..] == s;
      CorrectedNone(s, internal, es);
    }
  }

  lemma RestEnds(done: seq<Event>, internal: set<int>, es: seq<Entry>)
    ensures done + Rest([], internal, es) == done
  {
  }

  lemma CorrectedNone(s: seq<Event>, internal: set<int>, es: seq<Entry>)
    ensures Corrected(s, 0, internal, es) == []
  {
  }

  // ---------------------------------------------------------------- internal messages

  /** `dsu_handle_conn_epoll` for one event and one record. No connection is listed twice, so the
      walk is over at the first match; the kernel drops a closed descriptor from the interest
      list by itself, so the removal that follows finds nothing. */
  method HandleEvent(instance: Instance, r: Record, e: Event, accepted: int, recv: SelectSpec.Recv)
    returns (e': Event, sent: seq<Select.Sent>)
    requires r.comfds.Valid() && Distinct(r.comfds.Items()) && -1 !in r.comfds.Items()
    modifies instance, r`transfer, r.shared`transfer, r.comfds
    ensures r.comfds.Valid()
    ensures var d, cs := DataFd(e.data), old(r.comfds.Items());
            if e.events != 0 && d == r.comfd then
              && e' == e && instance.interest == old(instance.interest) && sent == []
              && r.comfds.Items() == (if accepted != -1 then cs + [accepted] else cs)
              && (r.shared.Status(), r.Flags()) == (old(r.shared.Status()), old(r.Flags()))
            else if e.events != 0 && d in cs && recv.Closed? then
              && e' == Event(e.events, WithFd(e.data, -1)) && instance.interest == Del(old(instance.interest), d)
              && r.comfds.Items() == RemoveFirst(cs, d) && sent == []
              && (r.shared.Status(), r.Flags()) == (old(r.shared.Status()), old(r.Flags()))
            else
              && e' == e && instance.interest == old(instance.interest) && r.comfds.Items() == cs
              && sent == (if e.events != 0 && d in cs then Select.Answer(d, recv, Select.OfferOf(r)) else [])
              && (r.shared.Status(), r.Flags())
                 == if e.events != 0 && d in cs && recv.Message? && r.port != -1
                    then Respond(old(r.shared.Status()), old(r.Flags())) else (old(r.shared.Status()), old(r.Flags()))
  {
    hide ItemsOf, DataFd, WithFd;
    hide Linked, Distinct;
    e', sent := e, [];
    if e.events == 0 { return; }
    var d := DataFd(e.data);
    if d == r.comfd {
      if accepted != -1 { r.comfds.Add(accepted); }
      return;
    }
    ghost var cs, i := r.comfds.Items(), 0;
    var cur := r.comfds.head;
    while cur != null && cur.item != d
      invariant 0 <= i <= |cs| && r.comfds.Valid() && r.comfds.Items() == cs && cur == At(r.comfds.nodes, i)
      invariant forall j :: 0 <= j < i ==> cs[j] != d
      invariant instance.interest == old(instance.interest)
      invariant (r.shared.Status(), r.Flags()) == (old(r.shared.Status()), old(r.Flags()))
      decreases |cs| - i
    {
      CurrentNode(r.comfds, cur, i);
      cur, i := r.comfds.next[cur], i + 1;
    }
    if cur == null {
      assert i == |cs|;
      return;
    }
    assert cs[i] == d;
    match recv {
      case Closed =>
        e' := Event(e.events, WithFd(e.data, -1));
        instance.interest := Del(instance.interest, d);
        var _ := instance.Ctl(CtlDel, d, Event(0, 0));
        RemoveFd(r.comfds, d);
      case WouldBlock =>
      case Failed =>
        sent := Select.Reply(r, d, true);
      case Message =>
        sent := Select.Reply(r, d, false);
    }
  }
}
