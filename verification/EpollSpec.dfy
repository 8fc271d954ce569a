/** What the wrapper around `epoll_wait` does to the kernel's interest list and to the reported
    events, as functions on values, and what that amounts to. */
module EpollSpec {
  import opened Options
  import opened State

  // ---------------------------------------------------------------- user data

  const WORD := 0x1_0000_0000

  /** The 64 bits of user data read as a descriptor: the low 32 bits, signed. */
  function DataFd(data: int): int {
    var low := data % WORD;
    if low >= 0x8000_0000 then low - WORD else low
  }

  /** Assigning a descriptor overwrites the low 32 bits only. */
  function WithFd(data: int, fd: int): int { data - data % WORD + fd % WORD }

  lemma DataFdOfWithFd(data: int, fd: int)
    requires -0x8000_0000 <= fd < 0x8000_0000
    ensures DataFd(WithFd(data, fd)) == fd
  {
    var high := data / WORD;
    assert WithFd(data, fd) == high * WORD + fd % WORD;
    assert WithFd(data, fd) % WORD == fd % WORD;
  }

  function Coded(ev: Event, fd: int): Event { Event(ev.events, WithFd(ev.data, fd)) }

  // ---------------------------------------------------------------- the interest list

  type Interest = map<int, Event>

  function Get(m: Interest, d: int): Option<Event> { if d in m then Some(m[d]) else None }

  /** `EPOLL_CTL_ADD` fails on a registered descriptor and leaves its entry. */
  function Add(m: Interest, d: int, ev: Event): Interest { if d in m then m else m[d := ev] }

  function Del(m: Interest, d: int): Interest { m - {d} }

  /** What the passes look at in a record; `ev` is the event that the application registered last,
      with no events when it did not. */
  datatype Entry = Entry(fd: int, shadowfd: int, ev: Event)

  predicate Registered(e: Entry) { e.ev.events != 0 }

  /** `dsu_epoll_shadowfd`. */
  function ShadowPass(e: Entry, m: Interest, admitted: bool): Interest {
    if !Registered(e) then m
    else if admitted then Add(Del(m, e.fd), e.shadowfd, Coded(e.ev, e.shadowfd)) else Del(m, e.fd)
  }

  /** `dsu_epoll_originalfd`. */
  function OriginalPass(e: Entry, m: Interest): Interest {
    if Registered(e) then Add(Del(m, e.shadowfd), e.fd, e.ev) else m
  }

  function ShadowAll(es: seq<Entry>, n: nat, m: Interest, admitted: nat -> bool): Interest
    requires n <= |es|
  {
    if n == 0 then m else ShadowPass(es[n - 1], ShadowAll(es, n - 1, m, admitted), admitted(n - 1))
  }

  function OriginalAll(es: seq<Entry>, n: nat, m: Interest): Interest
    requires n <= |es|
  {
    if n == 0 then m else OriginalPass(es[n - 1], OriginalAll(es, n - 1, m))
  }

  /** Internal descriptors are added with themselves as data. */
  function AddAll(m: Interest, ds: seq<int>, n: nat, ev: Event): Interest
    requires n <= |ds|
  {
    if n == 0 then m else Add(AddAll(m, ds, n - 1, ev), ds[n - 1], Coded(ev, ds[n - 1]))
  }

  /** The interest list while the process waits. */
  function Waiting(es: seq<Entry>, m: Interest, admitted: nat -> bool, internal: seq<int>, ev: Event): Interest {
    AddAll(ShadowAll(es, |es|, m, admitted), internal, |internal|, ev)
  }

  /** The interest list after the call; `closed` are internal connections that were closed. */
  function After(es: seq<Entry>, m: Interest, admitted: nat -> bool, internal: seq<int>, ev: Event, closed: set<int>): Interest {
    OriginalAll(es, |es|, Waiting(es, m, admitted, internal, ev) - closed)
  }

  /** Descriptors are used once. */
  ghost predicate Unmixed(es: seq<Entry>, internal: seq<int>) {
    && (forall i, j :: 0 <= i < j < |es| ==> es[i].fd != es[j].fd && es[i].shadowfd != es[j].shadowfd)
    && (forall i, j :: 0 <= i < |es| && 0 <= j < |es| && i != j ==> es[i].shadowfd != es[j].fd)
    && (forall i :: 0 <= i < |es| ==> es[i].fd !in internal && es[i].shadowfd !in internal)
  }

  /** No registered record below `n` has `d` as its descriptor or its shadow descriptor. */
  ghost predicate Foreign(es: seq<Entry>, n: nat, d: int)
    requires n <= |es|
  {
    forall i :: 0 <= i < n && Registered(es[i]) ==> d != es[i].fd && d != es[i].shadowfd
  }

  lemma {:induction false} ShadowAllForeign(es: seq<Entry>, n: nat, m: Interest, admitted: nat -> bool, d: int)
    requires n <= |es| && Foreign(es, n, d)
    ensures Get(ShadowAll(es, n, m, admitted), d) == Get(m, d)
  {
    if n > 0 { ShadowAllForeign(es, n - 1, m, admitted, d); }
  }

  lemma {:induction false} OriginalAllForeign(es: seq<Entry>, n: nat, m: Interest, d: int)
    requires n <= |es| && Foreign(es, n, d)
    ensures Get(OriginalAll(es, n, m), d) == Get(m, d)
  {
    if n > 0 { OriginalAllForeign(es, n - 1, m, d); }
  }

  lemma {:induction false} AddAllForeign(m: Interest, ds: seq<int>, n: nat, ev: Event, d: int)
    requires n <= |ds| && d !in ds
    ensures Get(AddAll(m, ds, n, ev), d) == Get(m, d)
  {
    if n > 0 { AddAllForeign(m, ds, n - 1, ev, d); }
  }

  lemma {:induction false} AddAllMembers(m: Interest, ds: seq<int>, n: nat, ev: Event, d: int)
    requires n <= |ds|
    ensures d in AddAll(m, ds, n, ev) <==> d in m || d in ds[..n]
    ensures d in m ==> AddAll(m, ds, n, ev)[d] == m[d]
    ensures d !in m && d in ds[..n] ==> AddAll(m, ds, n, ev)[d] == Coded(ev, d)
  {
    if n > 0 {
      AddAllMembers(m, ds, n - 1, ev, d);
      assert ds[..n] == ds[..n - 1] + [ds[n - 1]];
    }
  }

  lemma OthersAreForeign(es: seq<Entry>, internal: seq<int>, i: nat, n: nat)
    requires Unmixed(es, internal) && i < |es| && n <= |es|
    ensures n <= i ==> Foreign(es, n, es[i].fd) && Foreign(es, n, es[i].shadowfd)
  {
  }

  /** What the kernel watches for a registered record while the process waits: the shadow
      descriptor if the record is admitted, or if the application registered it, under that
      descriptor, since the last pass; and the user's descriptor only if it is the same one. */
  lemma {:induction false} WaitingFor(es: seq<Entry>, n: nat, m: Interest, admitted: nat -> bool, internal: seq<int>, i: nat)
    requires Unmixed(es, internal) && i < n <= |es| && Registered(es[i])
    ensures var e, w := es[i], ShadowAll(es, n, m, admitted);
            && (e.fd != e.shadowfd ==> e.fd !in w)
            && Get(w, e.shadowfd) == (if e.shadowfd != e.fd && e.shadowfd in m then Some(m[e.shadowfd])
                                      else if admitted(i) then Some(Coded(e.ev, e.shadowfd)) else None)
  {
    if i < n - 1 {
      WaitingFor(es, n - 1, m, admitted, internal, i);
      OthersAreForeign(es, internal, i, i);
      var o := es[n - 1];
      assert o.fd != es[i].fd && o.fd != es[i].shadowfd && o.shadowfd != es[i].fd && o.shadowfd != es[i].shadowfd;
    } else {
      OthersAreForeign(es, internal, i, i);
      ShadowAllForeign(es, i, m, admitted, es[i].fd);
      ShadowAllForeign(es, i, m, admitted, es[i].shadowfd);
    }
  }

  lemma {:induction false} OriginalFor(es: seq<Entry>, n: nat, w: Interest, internal: seq<int>, i: nat)
    requires Unmixed(es, internal) && i < n <= |es| && Registered(es[i])
    requires es[i].fd != es[i].shadowfd ==> es[i].fd !in w
    ensures var e, m := es[i], OriginalAll(es, n, w);
            && Get(m, e.fd) == Some(e.ev) && (e.fd != e.shadowfd ==> e.shadowfd !in m)
  {
    if i < n - 1 {
      OriginalFor(es, n - 1, w, internal, i);
      var o := es[n - 1];
      assert o.fd != es[i].fd && o.fd != es[i].shadowfd && o.shadowfd != es[i].fd && o.shadowfd != es[i].shadowfd;
    } else {
      OthersAreForeign(es, internal, i, i);
      OriginalAllForeign(es, i, w, es[i].fd);
      OriginalAllForeign(es, i, w, es[i].shadowfd);
    }
  }

  /** Normalisation: whichever of its descriptors a record was registered under, and whether or not
      it was admitted, the call leaves its `fd` registered with the event that the application
      gave and a differing shadow descriptor unregistered; it keeps every other entry that is not
      internal as it was. */
  lemma Normalises(es: seq<Entry>, m: Interest, admitted: nat -> bool, internal: seq<int>, ev: Event, closed: set<int>)
    requires Unmixed(es, internal) && forall d :: d in closed ==> d in internal
    ensures var m' := After(es, m, admitted, internal, ev, closed);
            && (forall i :: 0 <= i < |es| && Registered(es[i]) ==>
                  Get(m', es[i].fd) == Some(es[i].ev) && (es[i].fd != es[i].shadowfd ==> es[i].shadowfd !in m'))
            && (forall d :: Foreign(es, |es|, d) && d !in internal ==> Get(m', d) == Get(m, d))
  {
    var w0 := ShadowAll(es, |es|, m, admitted);
    var w := Waiting(es, m, admitted, internal, ev) - closed;
    forall i | 0 <= i < |es| && Registered(es[i])
      ensures Get(OriginalAll(es, |es|, w), es[i].fd) == Some(es[i].ev)
      ensures es[i].fd != es[i].shadowfd ==> es[i].shadowfd !in OriginalAll(es, |es|, w)
    {
      WaitingFor(es, |es|, m, admitted, internal, i);
      AddAllForeign(w0, internal, |internal|, ev, es[i].fd);
      OriginalFor(es, |es|, w, internal, i);
    }
    forall d | Foreign(es, |es|, d) && d !in internal ensures Get(OriginalAll(es, |es|, w), d) == Get(m, d) {
      ShadowAllForeign(es, |es|, m, admitted, d);
      AddAllForeign(w0, internal, |internal|, ev, d);
      OriginalAllForeign(es, |es|, w, d);
    }
  }

  /** A normal interest list: what a call leaves. */
  ghost predicate Normal(es: seq<Entry>, m: Interest) {
    forall i :: 0 <= i < |es| && Registered(es[i]) ==>
      Get(m, es[i].fd) == Some(es[i].ev) && (es[i].fd != es[i].shadowfd ==> es[i].shadowfd !in m)
  }

  lemma SameInterest(a: Interest, b: Interest)
    requires forall d :: Get(a, d) == Get(b, d)
    ensures a == b
  {
    forall d ensures d in a <==> d in b { assert Get(a, d) == Get(b, d); }
    forall d | d in a ensures a[d] == b[d] { assert Get(a, d) == Get(b, d); }
  }

  /** From then on a call changes nothing, whoever is admitted, as long as no internal connection
      comes or goes and the application registers nothing. */
  lemma NormalIsStable(es: seq<Entry>, m: Interest, admitted: nat -> bool, internal: seq<int>, ev: Event)
    requires Unmixed(es, internal) && Normal(es, m) && forall d :: d in internal ==> d in m
    ensures After(es, m, admitted, internal, ev, {}) == m
  {
    var m' := After(es, m, admitted, internal, ev, {});
    Normalises(es, m, admitted, internal, ev, {});
    forall d ensures Get(m', d) == Get(m, d) {
      if d in internal {
        assert Foreign(es, |es|, d);
        InternalStays(es, m, admitted, internal, ev, d);
      } else if !Foreign(es, |es|, d) {
        var i :| 0 <= i < |es| && Registered(es[i]) && (d == es[i].fd || d == es[i].shadowfd);
      }
    }
    SameInterest(m', m);
  }

  lemma InternalStays(es: seq<Entry>, m: Interest, admitted: nat -> bool, internal: seq<int>, ev: Event, d: int)
    requires Foreign(es, |es|, d) && d in m
    ensures Get(After(es, m, admitted, internal, ev, {}), d) == Get(m, d)
  {
    var w0 := ShadowAll(es, |es|, m, admitted);
    ShadowAllForeign(es, |es|, m, admitted, d);
    AddAllMembers(w0, internal, |internal|, ev, d);
    OriginalAllForeign(es, |es|, Waiting(es, m, admitted, internal, ev) - {}, d);
  }

  // ---------------------------------------------------------------- the reported events

  function SetOf(ds: seq<int>): set<int> { set d | d in ds }

  predicate AllIn(ready: seq<int>, w: Interest) { forall i :: 0 <= i < |ready| ==> ready[i] in w }

  /** What the kernel reports: for each ready descriptor the mask, with the registered data. */
  function Report(w: Interest, ready: seq<int>, mask: int -> int): (s: seq<Event>)
    requires AllIn(ready, w)
    ensures |s| == |ready| && forall i :: 0 <= i < |s| ==> s[i] == Event(mask(ready[i]), w[ready[i]].data)
  {
    seq(|ready|, i requires 0 <= i < |ready| => Event(mask(ready[i]), w[ready[i]].data))
  }

  /** `dsu_handle_conn_epoll` marks the event of a connection that it closed. */
  function Mark(e: Event, closed: set<int>): Event {
    if DataFd(e.data) in closed then Event(e.events, WithFd(e.data, -1)) else e
  }

  function Marks(s: seq<Event>, closed: set<int>): (r: seq<Event>)
    ensures |r| == |s| && forall i :: 0 <= i < |s| ==> r[i] == Mark(s[i], closed)
  {
    seq(|s|, i requires 0 <= i < |s| => Mark(s[i], closed))
  }

  function ShadowsIn(es: seq<Entry>): (s: seq<int>)
    ensures |s| == |es| && forall i :: 0 <= i < |s| ==> s[i] == es[i].shadowfd
  {
    seq(|es|, i requires 0 <= i < |es| => es[i].shadowfd)
  }

  /** The event of a shadow descriptor gets the stored data back. */
  function Restored(e: Event, es: seq<Entry>): Event {
    var i := FirstIndex(ShadowsIn(es), DataFd(e.data));
    if i < |es| && Registered(es[i]) then Event(e.events, es[i].ev.data) else e
  }

  /** The first `n` events without the internal ones, in order, with the user's data. */
  function Corrected(s: seq<Event>, n: nat, internal: set<int>, es: seq<Entry>): (r: seq<Event>)
    requires n <= |s|
    ensures |r| <= n
  {
    if n == 0 then []
    else Corrected(s, n - 1, internal, es)
         + if DataFd(s[n - 1].data) in internal then [] else [Restored(s[n - 1], es)]
  }

  /** The data under which the application registered a descriptor. */
  function DataOf(d: int, es: seq<Entry>, m: Interest): int {
    var i := FirstIndex(ShadowsIn(es), d);
    if i < |es| && Registered(es[i]) then es[i].ev.data else if d in m then m[d].data else 0
  }

  /** The kernel watches the descriptor on behalf of the application: it registered the descriptor
      itself, or a bound socket whose shadow it is. */
  predicate Mine(d: int, es: seq<Entry>, own: set<int>) {
    d in own || (FirstIndex(ShadowsIn(es), d) < |es| && Registered(es[FirstIndex(ShadowsIn(es), d)]))
  }

  /** What the application should be told about its own registrations. */
  function UserEvents(ready: seq<int>, n: nat, mask: int -> int, es: seq<Entry>, m: Interest, own: set<int>): seq<Event>
    requires n <= |ready|
  {
    if n == 0 then []
    else UserEvents(ready, n - 1, mask, es, m, own)
         + if Mine(ready[n - 1], es, own) then [Event(mask(ready[n - 1]), DataOf(ready[n - 1], es, m))] else []
  }

  /** Ready descriptors among the first `n` that are in `leaky`. */
  function Leaks(ready: seq<int>, n: nat, leaky: set<int>): nat
    requires n <= |ready|
  {
    if n == 0 then 0 else Leaks(ready, n - 1, leaky) + if ready[n - 1] in leaky then 1 else 0
  }

  /** Read as a descriptor, the application's data is no internal one, and a shadow descriptor only
      if it is that record's own data. */
  ghost predicate Recognisable(data: int, known: set<int>, es: seq<Entry>) {
    && DataFd(data) !in known
    && forall i :: 0 <= i < |es| && Registered(es[i]) && DataFd(data) == es[i].shadowfd ==> es[i].ev.data == data
  }

  /** A listener that a record has closed while other processes keep it open: the kernel goes on
      watching it, and no control operation can name it any more. */
  ghost predicate Leftover(d: int, es: seq<Entry>, known: set<int>, own: set<int>) {
    0 <= d < 0x8000_0000 && d !in known && d !in own && NoShadow(es, d)
  }

  /** The interest list at the start of the call holds what the application registered (`own`, and
      bound sockets under one of their descriptors), internal descriptors, listeners closed
      earlier (`stale`), the last two with themselves as data, and nothing else. */
  ghost predicate Faithful(es: seq<Entry>, m: Interest, internal: seq<int>, known: set<int>, own: set<int>, stale: set<int>) {
    && Unmixed(es, internal)
    && (forall d :: d in internal ==> d in known && 0 <= d < 0x8000_0000 && (d in m ==> DataFd(m[d].data) == d))
    && (forall i :: 0 <= i < |es| && Registered(es[i]) ==>
          && 0 <= es[i].shadowfd < 0x8000_0000 && es[i].shadowfd !in known && Recognisable(es[i].ev.data, known, es)
          && (es[i].shadowfd != es[i].fd && es[i].shadowfd in m ==> m[es[i].shadowfd] == es[i].ev))
    && (forall d :: d in m && d !in internal && Foreign(es, |es|, d) ==> d in own || d in stale)
    && (forall d :: d in own ==> d !in known && Foreign(es, |es|, d) && (d in m ==> Recognisable(m[d].data, known, es)))
    && (forall d :: d in stale ==> Leftover(d, es, known, own) && (d in m ==> DataFd(m[d].data) == d))
  }

  lemma ShadowIndex(es: seq<Entry>, internal: seq<int>, i: nat)
    requires Unmixed(es, internal) && i < |es|
    ensures FirstIndex(ShadowsIn(es), es[i].shadowfd) == i
  {
    FirstIndexIs(ShadowsIn(es), es[i].shadowfd, i);
  }

  /** What the kernel watches besides internal descriptors: the application's, or a leftover. */
  lemma OneWatched(es: seq<Entry>, m: Interest, admitted: nat -> bool, internal: seq<int>, ev: Event, known: set<int>,
                   own: set<int>, stale: set<int>, d: int)
    requires Faithful(es, m, internal, known, own, stale) && d in Waiting(es, m, admitted, internal, ev) && d !in internal
    ensures if Foreign(es, |es|, d) then d in m && Waiting(es, m, admitted, internal, ev)[d] == m[d] && (d in own || d in stale)
            else exists i :: 0 <= i < |es| && Registered(es[i]) && d == es[i].shadowfd
                             && DataFd(es[i].ev.data) !in known
                             && (Waiting(es, m, admitted, internal, ev)[d].data == es[i].ev.data
                                 || Waiting(es, m, admitted, internal, ev)[d].data == WithFd(es[i].ev.data, d))
  {
    var w0, w := ShadowAll(es, |es|, m, admitted), Waiting(es, m, admitted, internal, ev);
    AddAllForeign(w0, internal, |internal|, ev, d);
    assert Get(w, d) == Get(w0, d) && d in w0;
    if Foreign(es, |es|, d) {
      ShadowAllForeign(es, |es|, m, admitted, d);
    } else {
      var i :| 0 <= i < |es| && Registered(es[i]) && (d == es[i].fd || d == es[i].shadowfd);
      WaitingFor(es, |es|, m, admitted, internal, i);
    }
  }

  /** What becomes of the event of one ready descriptor that is not internal. */
  lemma OneOtherEvent(es: seq<Entry>, m: Interest, admitted: nat -> bool, internal: seq<int>, ev: Event, known: set<int>,
                      own: set<int>, stale: set<int>, d: int, mask: int)
    requires Faithful(es, m, internal, known, own, stale) && d in Waiting(es, m, admitted, internal, ev) && d !in internal
    ensures var e := Event(mask, Waiting(es, m, admitted, internal, ev)[d].data);
            && DataFd(e.data) !in known
            && (Mine(d, es, own) <==> d !in stale)
            && (Mine(d, es, own) ==> Restored(e, es) == Event(mask, DataOf(d, es, m)))
  {
    var w := Waiting(es, m, admitted, internal, ev);
    OneWatched(es, m, admitted, internal, ev, known, own, stale, d);
    if Foreign(es, |es|, d) {
      ForeignEvent(es, m, internal, known, own, stale, d, mask);
    } else {
      var i :| 0 <= i < |es| && Registered(es[i]) && d == es[i].shadowfd && DataFd(es[i].ev.data) !in known
               && (w[d].data == es[i].ev.data || w[d].data == WithFd(es[i].ev.data, d));
      ShadowIndex(es, internal, i);
      DataFdOfWithFd(es[i].ev.data, d);
      RestoredSame(es[i].ev.data, mask, known, es, internal);
    }
  }

  lemma ForeignEvent(es: seq<Entry>, m: Interest, internal: seq<int>, known: set<int>, own: set<int>, stale: set<int>, d: int, mask: int)
    requires Faithful(es, m, internal, known, own, stale) && Foreign(es, |es|, d) && d in m && (d in own || d in stale)
    ensures var e := Event(mask, m[d].data);
            && DataFd(e.data) !in known
            && (Mine(d, es, own) <==> d !in stale)
            && (Mine(d, es, own) ==> Restored(e, es) == Event(mask, DataOf(d, es, m)))
  {
    var i := FirstIndex(ShadowsIn(es), d);
    if d in own {
      RestoredSame(m[d].data, mask, known, es, internal);
    }
  }

  lemma RestoredSame(data: int, mask: int, known: set<int>, es: seq<Entry>, internal: seq<int>)
    requires Recognisable(data, known, es)
    ensures Restored(Event(mask, data), es) == Event(mask, data)
  {
  }

  lemma OneInternalEvent(es: seq<Entry>, m: Interest, admitted: nat -> bool, internal: seq<int>, ev: Event, known: set<int>,
                         own: set<int>, stale: set<int>, d: int)
    requires Faithful(es, m, internal, known, own, stale) && d in internal
    ensures d in Waiting(es, m, admitted, internal, ev) && DataFd(Waiting(es, m, admitted, internal, ev)[d].data) == d
    ensures !Mine(d, es, own) && d !in stale
  {
    var w0 := ShadowAll(es, |es|, m, admitted);
    assert internal[..|internal|] == internal;
    AddAllMembers(w0, internal, |internal|, ev, d);
    assert Foreign(es, |es|, d);
    ShadowAllForeign(es, |es|, m, admitted, d);
    DataFdOfWithFd(ev.data, d);
  }

  /** The event of one ready descriptor: dropped if it is internal and stays open, kept if it was
      closed or is a leftover, and given its data back if it is the application's. */
  lemma OneEvent(es: seq<Entry>, m: Interest, admitted: nat -> bool, internal: seq<int>, ev: Event,
                 closed: set<int>, now: set<int>, own: set<int>, stale: set<int>, d: int, mask: int)
    requires Faithful(es, m, internal, now + SetOf(internal), own, stale)
    requires -1 !in now && forall d :: d in closed ==> d in internal
    requires forall d :: d in internal && d !in closed ==> d in now
    requires d in Waiting(es, m, admitted, internal, ev)
    ensures var e := Mark(Event(mask, Waiting(es, m, admitted, internal, ev)[d].data), closed);
            && (DataFd(e.data) !in now <==> Mine(d, es, own) || d in closed + stale)
            && (Mine(d, es, own) ==> d !in closed + stale && Restored(e, es) == Event(mask, DataOf(d, es, m)))
  {
    var known, w := now + SetOf(internal), Waiting(es, m, admitted, internal, ev);
    if d in internal {
      OneInternalEvent(es, m, admitted, internal, ev, known, own, stale, d);
      DataFdOfWithFd(w[d].data, -1);
    } else {
      OneOtherEvent(es, m, admitted, internal, ev, known, own, stale, d, mask);
      assert forall c :: c in closed ==> c in known;
    }
  }

  /** `epoll_wait` refines a plain `epoll_wait` on the application's own registrations: it reports
      each of them that is ready, in order, with its data and the kernel's mask; and besides, the
      events of connections that it closed in this very call, and those of leftover listeners. */
  lemma {:induction false} EventsOf(es: seq<Entry>, m: Interest, admitted: nat -> bool, internal: seq<int>, ev: Event,
                                    closed: set<int>, now: set<int>, own: set<int>, stale: set<int>,
                                    ready: seq<int>, mask: int -> int, n: nat)
    requires Faithful(es, m, internal, now + SetOf(internal), own, stale)
    requires -1 !in now && forall d :: d in closed ==> d in internal
    requires forall d :: d in internal && d !in closed ==> d in now
    requires n <= |ready| && AllIn(ready, Waiting(es, m, admitted, internal, ev))
    ensures var s := Marks(Report(Waiting(es, m, admitted, internal, ev), ready, mask), closed);
            var user, leaks := UserEvents(ready, n, mask, es, m, own), Leaks(ready, n, closed + stale);
            && |Corrected(s, n, now, es)| == |user| + leaks
            && (leaks == 0 ==> Corrected(s, n, now, es) == user)
  {
    hide Faithful, Restored, DataOf, Mark, DataFd, Mine;
    if n > 0 {
      var w := Waiting(es, m, admitted, internal, ev);
      assert ready[n - 1] in w;
      hide Waiting, AllIn;
      EventsOf(es, m, admitted, internal, ev, closed, now, own, stale, ready, mask, n - 1);
      OneEvent(es, m, admitted, internal, ev, closed, now, own, stale, ready[n - 1], mask(ready[n - 1]));
      assert Marks(Report(w, ready, mask), closed)[n - 1] == Mark(Event(mask(ready[n - 1]), w[ready[n - 1]].data), closed);
    }
  }

  /** The exact condition: the application is told about its own registrations and nothing else if
      and only if no reported descriptor was closed in this call or is a leftover listener. */
  lemma EventsAreTheUsersIff(es: seq<Entry>, m: Interest, admitted: nat -> bool, internal: seq<int>, ev: Event,
                             closed: set<int>, now: set<int>, own: set<int>, stale: set<int>, ready: seq<int>, mask: int -> int)
    requires Faithful(es, m, internal, now + SetOf(internal), own, stale)
    requires -1 !in now && forall d :: d in closed ==> d in internal
    requires forall d :: d in internal && d !in closed ==> d in now
    requires AllIn(ready, Waiting(es, m, admitted, internal, ev))
    ensures Corrected(Marks(Report(Waiting(es, m, admitted, internal, ev), ready, mask), closed), |ready|, now, es)
            == UserEvents(ready, |ready|, mask, es, m, own)
       <==> forall i :: 0 <= i < |ready| ==> ready[i] !in closed && ready[i] !in stale
  {
    EventsOf(es, m, admitted, internal, ev, closed, now, own, stale, ready, mask, |ready|);
    NoLeaksIff(ready, |ready|, closed + stale);
  }

  lemma {:induction false} NoLeaksIff(ready: seq<int>, n: nat, leaky: set<int>)
    requires n <= |ready|
    ensures Leaks(ready, n, leaky) == 0 <==> forall i :: 0 <= i < n ==> ready[i] !in leaky
  {
    if n > 0 { NoLeaksIff(ready, n - 1, leaky); }
  }

  /** What a call needs of the interest list it leaves for the next one. */
  lemma FaithfulStays(es: seq<Entry>, m: Interest, admitted: nat -> bool, internal: seq<int>, ev: Event,
                      closed: set<int>, known: set<int>, own: set<int>, stale: set<int>)
    requires Faithful(es, m, internal, known, own, stale) && forall d :: d in closed ==> d in internal
    ensures Faithful(es, After(es, m, admitted, internal, ev, closed), internal, known, own, stale)
  {
    var m' := After(es, m, admitted, internal, ev, closed);
    var w0, w := ShadowAll(es, |es|, m, admitted), Waiting(es, m, admitted, internal, ev) - closed;
    Normalises(es, m, admitted, internal, ev, closed);
    hide Recognisable, After, Waiting;
    forall d | d in internal && d in m' ensures DataFd(m'[d].data) == d {
      InternalAfter(es, m, admitted, internal, ev, closed, known, own, stale, d);
    }
    forall d | d !in internal && Foreign(es, |es|, d) ensures Get(m', d) == Get(m, d) { }
    forall d | d in own || d in stale ensures d !in internal && Foreign(es, |es|, d) { }
  }

  lemma InternalAfter(es: seq<Entry>, m: Interest, admitted: nat -> bool, internal: seq<int>, ev: Event,
                      closed: set<int>, known: set<int>, own: set<int>, stale: set<int>, d: int)
    requires Faithful(es, m, internal, known, own, stale) && d in internal
    requires d in After(es, m, admitted, internal, ev, closed)
    ensures DataFd(After(es, m, admitted, internal, ev, closed)[d].data) == d
  {
    var w := Waiting(es, m, admitted, internal, ev) - closed;
    OneInternalEvent(es, m, admitted, internal, ev, known, own, stale, d);
    assert Foreign(es, |es|, d);
    OriginalAllForeign(es, |es|, w, d);
    assert Get(OriginalAll(es, |es|, w), d) == Get(w, d);
  }

  /** Connections that come are new to the kernel and to the records; those that go are out of the
      interest list. */
  lemma InternalsChange(es: seq<Entry>, m: Interest, internal: seq<int>, internal': seq<int>, known: set<int>, own: set<int>, stale: set<int>)
    requires Faithful(es, m, internal, known, own, stale)
    requires forall d :: d in internal' ==> d in known
    requires forall d :: d in internal' && d !in internal ==> d !in m && 0 <= d < 0x8000_0000 && NoShadow(es, d)
    requires forall d :: d in m && d in internal ==> d in internal'
    ensures Faithful(es, m, internal', known, own, stale)
  {
    hide Recognisable, Leftover;
    forall i | 0 <= i < |es| ensures es[i].fd !in internal' && es[i].shadowfd !in internal' {
      assert !NoShadow(es, es[i].fd) && !NoShadow(es, es[i].shadowfd);
    }
  }

  ghost predicate NoShadow(es: seq<Entry>, d: int) {
    forall i :: 0 <= i < |es| ==> d != es[i].fd && d != es[i].shadowfd
  }

  /** What the kernel does when a descriptor is closed: it stops watching it, unless another process
      keeps the same open file. */
  function CloseWatched(m: Interest, d: int, elsewhere: bool): Interest { if elsewhere then m else m - {d} }

  /** The quit of the state handler: the listener is closed, and what is left of it in the interest
      list is a leftover. */
  lemma QuitLeaves(es: seq<Entry>, m: Interest, internal: seq<int>, internal': seq<int>, comfd: int, elsewhere: bool,
                   known: set<int>, own: set<int>, stale: set<int>)
    requires Faithful(es, m, internal, known, own, stale) && comfd in internal
    requires forall d :: d in internal' <==> d in internal && d != comfd
    ensures Faithful(es, CloseWatched(m, comfd, elsewhere), internal', known - {comfd}, own, stale + {comfd})
    ensures comfd in CloseWatched(m, comfd, elsewhere) <==> comfd in m && elsewhere
  {
    var m' := CloseWatched(m, comfd, elsewhere);
    assert NoShadow(es, comfd);
    forall d | d in stale + {comfd} ensures Leftover(d, es, known - {comfd}, own) { }
  }

  // ---------------------------------------------------------------- registering

  datatype Op = CtlAdd | CtlMod | CtlDel

  /** The kernel's answer to a control operation. */
  function Control(m: Interest, op: Op, d: int, ev: Event): (Interest, int) {
    match op
    case CtlAdd => if d in m then (m, -1) else (m[d := ev], 0)
    case CtlMod => if d in m then (m[d := ev], 0) else (m, -1)
    case CtlDel => if d in m then (m - {d}, 0) else (m, -1)
  }

  /** The `epoll_ctl` wrapper on a bound socket: the event is stored, the operation goes to the
      shadow descriptor. */
  function ControlBound(e: Entry, m: Interest, op: Op, ev: Event): (Entry, Interest, int) {
    var (m', rc) := Control(m, op, e.shadowfd, ev);
    (e.(ev := if op.CtlDel? then Event(0, 0) else ev), m', rc)
  }

  /** Between calls the interest list holds `fd`, while the wrapper names the shadow descriptor. So
      on a registered socket a change or a removal succeeds, and a second registration fails,
      exactly when both are the same descriptor. */
  lemma ControlWorksIff(e: Entry, m: Interest, op: Op, ev: Event)
    requires Normal([e], m) && Registered(e)
    ensures var (_, _, rc) := ControlBound(e, m, op, ev);
            rc == (if op.CtlAdd? then -1 else 0) <==> e.fd == e.shadowfd
  {
    assert Registered([e][0]);
  }

  /** An inherited socket 3 whose shadow is 5: a removal and a change are answered as failed, and the
      removed one stays watched. */
  lemma InheritedControlFails()
    ensures var e, m := Entry(3, 5, Event(1, 3)), map[3 := Event(1, 3)];
            var ((_, m', gone), (_, _, changed)) := (ControlBound(e, m, CtlDel, Event(0, 0)), ControlBound(e, m, CtlMod, Event(1, 3)));
            Normal([e], m) && Registered(e) && gone == changed == -1 && 3 in m'
  {
    assert [Entry(3, 5, Event(1, 3))][0].fd == 3;
  }

  /** A later call: who is admitted, the internal descriptors, and which of them are closed. */
  datatype Later = Later(admitted: nat -> bool, internal: seq<int>, ev: Event, closed: set<int>)

  function AfterAll(es: seq<Entry>, m: Interest, calls: seq<Later>): Interest
    decreases |calls|
  {
    if calls == [] then m
    else AfterAll(es, After(es, m, calls[0].admitted, calls[0].internal, calls[0].ev, calls[0].closed), calls[1..])
  }

  ghost predicate AllUnmixed(es: seq<Entry>, calls: seq<Later>) {
    forall k {:trigger calls[k]} :: 0 <= k < |calls| ==>
      Unmixed(es, calls[k].internal) && forall d :: d in calls[k].closed ==> d in calls[k].internal
  }

  lemma {:induction false} ForeignThroughAll(es: seq<Entry>, m: Interest, calls: seq<Later>, d: int)
    requires AllUnmixed(es, calls) && Foreign(es, |es|, d)
    requires forall k :: 0 <= k < |calls| ==> d !in calls[k].internal
    ensures Get(AfterAll(es, m, calls), d) == Get(m, d)
    decreases |calls|
  {
    if calls != [] {
      var c := calls[0];
      Normalises(es, m, c.admitted, c.internal, c.ev, c.closed);
      assert forall k :: 0 <= k < |calls| - 1 ==> calls[1..][k] == calls[k + 1];
      ForeignThroughAll(es, After(es, m, c.admitted, c.internal, c.ev, c.closed), calls[1..], d);
    }
  }

  /** After a removal the socket's own descriptor is no longer watched if and only if it is its own
      shadow; otherwise it stays in the interest list, untouched by any number of later calls. */
  lemma RemovalTakesEffectIff(e: Entry, m: Interest, ev: Event, calls: seq<Later>)
    requires Normal([e], m) && Registered(e) && AllUnmixed([e], calls)
    ensures var (e', m', _) := ControlBound(e, m, CtlDel, ev);
            && (e.fd !in m' <==> e.fd == e.shadowfd)
            && Get(AfterAll([e'], m', calls), e.fd) == Get(m', e.fd)
  {
    assert Registered([e][0]);
    var (e', m', _) := ControlBound(e, m, CtlDel, ev);
    assert e.fd == [e][0].fd;
    forall k | 0 <= k < |calls| ensures Unmixed([e'], calls[k].internal) && e.fd !in calls[k].internal {
      assert Unmixed([e], calls[k].internal) && [e][0] == e;
      UnmixedStays(e, e', calls[k].internal);
    }
    ForeignThroughAll([e'], m', calls, e.fd);
  }

  lemma UnmixedStays(e: Entry, e': Entry, internal: seq<int>)
    requires Unmixed([e], internal) && e'.fd == e.fd && e'.shadowfd == e.shadowfd
    ensures Unmixed([e'], internal)
  {
    assert [e][0] == e;
  }

  /** A registration takes effect: the next call leaves the socket's own descriptor watched with the
      event that was given. */
  lemma AdditionTakesEffect(e: Entry, m: Interest, ev: Event, admitted: nat -> bool, internal: seq<int>, iv: Event)
    requires Unmixed([e], internal) && ev.events != 0
    ensures var (e', m', _) := ControlBound(e, m, CtlAdd, ev);
            && e'.ev == ev && Get(m', e.shadowfd) == (if e.shadowfd in m then Some(m[e.shadowfd]) else Some(ev))
            && Get(After([e'], m', admitted, internal, iv, {}), e.fd) == Some(ev)
  {
    var (e', m', _) := ControlBound(e, m, CtlAdd, ev);
    UnmixedStays(e, e', internal);
    Normalises([e'], m', admitted, internal, iv, {});
    assert Registered([e'][0]) && [e'][0].fd == e.fd;
  }

  /** A change, though it is reported as failed, takes effect with the next call. */
  lemma ChangeTakesEffect(e: Entry, m: Interest, ev: Event, admitted: nat -> bool, internal: seq<int>, iv: Event)
    requires Unmixed([e], internal) && ev.events != 0
    ensures var (e', m', _) := ControlBound(e, m, CtlMod, ev);
            Get(After([e'], m', admitted, internal, iv, {}), e.fd) == Some(ev)
  {
    var (e', m', _) := ControlBound(e, m, CtlMod, ev);
    UnmixedStays(e, e', internal);
    Normalises([e'], m', admitted, internal, iv, {});
    assert Registered([e'][0]) && [e'][0].fd == e.fd;
  }
}
