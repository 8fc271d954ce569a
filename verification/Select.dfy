/** The wrapper around `select`, in place on the caller's sets and on the records. */
module Select {
  import opened Steps
  import opened State
  import opened SelectSpec
  import Core

  class FdSet {
    var bits: set<int>

    constructor (bits: set<int>)
      ensures this.bits == bits
    {
      this.bits := bits;
    }
  }

  ghost function Bits(s: FdSet?): set<int>
    reads s
  {
    if s == null then {} else s.bits
  }

  /** A descriptor sent on an internal connection, with the port number as the verdict. */
  datatype Sent = Sent(conn: int, fd: int, port: int)

  /** What is sent on a connection after a read: both descriptors the process itself uses for the
      port, with the port number, or -1 when the request could not be read. */
  function Answer(c: int, recv: Recv, offer: Offer): seq<Sent> {
    var verdict := if recv.Failed? then -1 else offer.port;
    if recv.Failed? || recv.Message? then [Sent(c, offer.shadowfd, verdict), Sent(c, offer.comfd, verdict)] else []
  }

  function ReplyTo(c: int, ready: set<int>, net: Net, offer: Offer): seq<Sent> {
    if c in ready then Answer(c, net.recv(c), offer) else []
  }

  function Replies(s: seq<int>, n: nat, ready: set<int>, net: Net, offer: Offer): seq<Sent>
    requires n <= |s|
  {
    if n == 0 then [] else Replies(s, n - 1, ready, net, offer) + ReplyTo(s[n - 1], ready, net, offer)
  }

  /** What is sent on one connection, in order. */
  function On(sent: seq<Sent>, c: int): seq<Sent> {
    if sent == [] then [] else (if sent[0].conn == c then [sent[0]] else []) + On(sent[1..], c)
  }

  lemma {:induction false} OnConcat(a: seq<Sent>, b: seq<Sent>, c: int)
    ensures On(a + b, c) == On(a, c) + On(b, c)
  {
    if a == [] {
      assert a + b == b;
    } else {
      assert (a + b)[1..] == a[1..] + b;
      OnConcat(a[1..], b, c);
    }
  }

  lemma NothingOn(c: int)
    ensures On([], c) == []
  {
  }

  /** A request that was read is answered with both descriptors that the process itself uses, the
      one it serves and then the listener, each with the port number; one that could not be read,
      with -1 for the port number. */
  lemma OnAnswer(d: int, recv: Recv, offer: Offer, c: int)
    ensures On(Answer(d, recv, offer), c) ==
            if c == d && recv.Message? then [Sent(c, offer.shadowfd, offer.port), Sent(c, offer.comfd, offer.port)]
            else if c == d && recv.Failed? then [Sent(c, offer.shadowfd, -1), Sent(c, offer.comfd, -1)]
            else []
  {
    var a := Answer(d, recv, offer);
    if a != [] {
      assert a == [a[0], a[1]] && a[1..] == [a[1]] && [a[1]][1..] == [];
      assert On(a, c) == (if a[0].conn == c then [a[0]] else []) + On([a[1]], c);
      assert On([a[1]], c) == if a[1].conn == c then [a[1]] else [];
    }
  }

  lemma {:induction false} OnReplies(s: seq<int>, n: nat, ready: set<int>, net: Net, offer: Offer, c: int)
    requires Distinct(s) && n <= |s|
    ensures On(Replies(s, n, ready, net, offer), c) == if c in s[..n] && c in ready then On(Answer(c, net.recv(c), offer), c) else []
  {
    hide Answer, On;
    if n > 0 {
      var d := s[n - 1];
      OnReplies(s, n - 1, ready, net, offer, c);
      OnConcat(Replies(s, n - 1, ready, net, offer), ReplyTo(d, ready, net, offer), c);
      OnAnswer(d, net.recv(d), offer, c);
      assert s[..n] == s[..n - 1] + [d] && d !in s[..n - 1];
    }
    NothingOn(c);
  }

  /** One of the first `n` connections carried a request that is granted. */
  predicate Answers(s: seq<int>, n: nat, ready: set<int>, net: Net, port: int)
    requires n <= |s|
  {
    n > 0 && ((port != -1 && s[n - 1] in ready && net.recv(s[n - 1]).Message?) || Answers(s, n - 1, ready, net, port))
  }

  lemma {:induction false} SurvivorsAre(s: seq<int>, n: nat, ready: set<int>, net: Net)
    requires Distinct(s) && n <= |s|
    ensures var a := Survivors(s, n, ready, net);
            && Distinct(a) && |a| <= n
            && (forall c :: c in a <==> c in s[..n] && !(c in ready && net.recv(c).Closed?))
  {
    if n > 0 {
      SurvivorsAre(s, n - 1, ready, net);
      assert s[..n] == s[..n - 1] + [s[n - 1]];
      assert s[n - 1] !in s[..n - 1];
    }
  }

  /** How far the walk over the internal connections has come: the list and the position in it,
      what is left of the read set, how many bits were cleared, what was sent, and the port and
      the record. */
  datatype Walk = Walk(items: seq<int>, at: nat, bits: set<int>, cleared: int, sent: seq<Sent>, so: (Status, Flags))

  /** The descriptors and the port number that a record answers with. */
  datatype Offer = Offer(shadowfd: int, comfd: int, port: int)

  function Visit(c: int, w: Walk, net: Net, offer: Offer): Walk {
    var ready := c in w.bits;
    var gone := ready && net.recv(c).Closed?;
    Walk(if gone then Without(w.items, w.at) else w.items,
         if gone then w.at else w.at + 1,
         w.bits - {c},
         if ready then w.cleared + 1 else w.cleared,
         w.sent + ReplyTo(c, w.bits, net, offer),
         if ready && net.recv(c).Message? && offer.port != -1 then Respond(w.so.0, w.so.1) else w.so)
  }

  function WalkTo(s: seq<int>, n: nat, w: Walk, net: Net, offer: Offer): Walk
    requires n <= |s|
  {
    if n == 0 then w else Visit(s[n - 1], WalkTo(s, n - 1, w, net, offer), net, offer)
  }

  function Start(s: seq<int>, ready: set<int>, so: (Status, Flags)): Walk { Walk(s, 0, ready, 0, [], so) }

  function Visited(s: seq<int>, n: nat): set<int>
    requires n <= |s|
  {
    if n == 0 then {} else Visited(s, n - 1) + {s[n - 1]}
  }

  lemma {:induction false} VisitedIs(s: seq<int>, n: nat)
    requires n <= |s|
    ensures Visited(s, n) == Elements(s[..n])
  {
    if n > 0 {
      VisitedIs(s, n - 1);
      assert s[..n] == s[..n - 1] + [s[n - 1]];
    }
  }

  lemma NotVisitedBefore(s: seq<int>, n: nat)
    requires n < |s| && Distinct(s)
    ensures s[n] !in Visited(s, n)
  {
    VisitedIs(s, n);
    assert forall i :: 0 <= i < n ==> s[i] != s[n];
  }

  /** Where the walk comes to after `n` connections, in terms of the list and the ready descriptors
      it began with: the survivors so far, then the rest of the list. */
  function Expect(s: seq<int>, n: nat, ready: set<int>, so: (Status, Flags), net: Net, offer: Offer): Walk
    requires n <= |s|
  {
    var kept, bits := Survivors(s, n, ready, net), ready - Visited(s, n);
    Walk(kept + s[n..], |kept|, bits, |ready| - |bits|, Replies(s, n, ready, net, offer),
         if Answers(s, n, ready, net, offer.port) then Respond(so.0, so.1) else so)
  }

  lemma VisitKeeps(s: seq<int>, n: nat, kept: seq<int>)
    requires n < |s|
    ensures Without(kept + s[n..], |kept|) == kept + s[n + 1..]
    ensures kept + s[n..] == kept + [s[n]] + s[n + 1..]
  {
  }

  lemma VisitClears(bits: set<int>, c: int)
    ensures |bits - {c}| == |bits| - (if c in bits then 1 else 0)
  {
  }

  /** One visit leads from what is expected to what is expected next. */
  lemma ExpectStep(s: seq<int>, n: nat, ready: set<int>, so: (Status, Flags), net: Net, offer: Offer)
    requires n < |s| && Distinct(s)
    ensures Visit(s[n], Expect(s, n, ready, so, net, offer), net, offer) == Expect(s, n + 1, ready, so, net, offer)
  {
    NotVisitedBefore(s, n);
    hide Distinct, Respond;
    var w, e := Visit(s[n], Expect(s, n, ready, so, net, offer), net, offer), Expect(s, n + 1, ready, so, net, offer);
    assert w.items == e.items && w.at == e.at by {
      hide Replies, Answers;
      VisitKeeps(s, n, Survivors(s, n, ready, net));
    }
    assert w.bits == e.bits && w.cleared == e.cleared by {
      hide Replies, Answers, Survivors, Without;
      VisitClears(ready - Visited(s, n), s[n]);
      assert ready - Visited(s, n) - {s[n]} == ready - Visited(s, n + 1);
    }
  }

  lemma ExpectStart(s: seq<int>, ready: set<int>, so: (Status, Flags), net: Net, offer: Offer)
    ensures Expect(s, 0, ready, so, net, offer) == Start(s, ready, so)
  {
    assert [] + s[0..] == s;
    assert ready - {} == ready;
  }

  lemma {:induction false} WalkIs(s: seq<int>, n: nat, ready: set<int>, so: (Status, Flags), net: Net, offer: Offer)
    requires n <= |s| && Distinct(s)
    ensures WalkTo(s, n, Start(s, ready, so), net, offer) == Expect(s, n, ready, so, net, offer)
  {
    hide Visit, Expect;
    if n == 0 {
      ExpectStart(s, ready, so, net, offer);
    } else {
      WalkIs(s, n - 1, ready, so, net, offer);
      ExpectStep(s, n - 1, ready, so, net, offer);
    }
  }

  lemma WalkStarts(w: Walk, s: seq<int>, net: Net, offer: Offer)
    ensures WalkTo(s, 0, w, net, offer) == w
  {
  }

  lemma WalkSteps(s: seq<int>, n: nat, w: Walk, net: Net, offer: Offer)
    requires n <= |s|
    ensures n < |s| ==> WalkTo(s, n + 1, w, net, offer) == Visit(s[n], WalkTo(s, n, w, net, offer), net, offer)
    ensures var v := WalkTo(s, n, w, net, offer); n < |s| ==> Visit(s[n], v, net, offer).sent == v.sent + ReplyTo(s[n], v.bits, net, offer)
  {
  }

  /** The walk is at connection `n`, which is listed nowhere before. */
  lemma WalkAt(s: seq<int>, n: nat, ready: set<int>, so: (Status, Flags), net: Net, offer: Offer)
    requires n <= |s| && Distinct(s)
    ensures var w := WalkTo(s, n, Start(s, ready, so), net, offer);
            && (w.at < |w.items| <==> n < |s|)
            && (n < |s| ==> w.items[w.at] == s[n] && FirstIndex(w.items, w.items[w.at]) == w.at)
  {
    WalkIs(s, n, ready, so, net, offer);
    SurvivorsAre(s, n, ready, net);
    var kept := Survivors(s, n, ready, net);
    if n < |s| {
      forall i | 0 <= i < |kept| ensures kept[i] != s[n] {
        assert kept[i] in kept;
      }
      FirstIndexIs(kept + s[n..], s[n], |kept|);
    }
  }

  lemma WalkEnds(s: seq<int>, n: nat, ready: set<int>, so: (Status, Flags), net: Net, offer: Offer)
    requires n <= |s| && Distinct(s)
    ensures var w := WalkTo(s, n, Start(s, ready, so), net, offer);
            w.at >= |w.items| ==>
              && w.items == Survivors(s, |s|, ready, net)
              && w.bits == ready - Elements(s) && w.cleared == |ready| - |w.bits|
              && w.sent == Replies(s, |s|, ready, net, offer)
              && w.so == if Answers(s, |s|, ready, net, offer.port) then Respond(so.0, so.1) else so
  {
    WalkAt(s, n, ready, so, net, offer);
    if n == |s| {
      WalkIs(s, n, ready, so, net, offer);
      VisitedIs(s, n);
      assert s[..n] == s;
    }
  }

  /** The internal connections that a record keeps when its connections were handled. */
  function After(v: View, bits: set<int>, net: Net): seq<int> {
    var full := Connections(v, bits, net);
    Survivors(full, |full|, bits - {v.comfd}, net)
  }

  lemma {:induction false} NothingReadyUpTo(s: seq<int>, n: nat, net: Net, offer: Offer)
    requires n <= |s|
    ensures Survivors(s, n, {}, net) == s[..n] && Replies(s, n, {}, net, offer) == []
    ensures !Answers(s, n, {}, net, offer.port)
  {
    if n > 0 {
      NothingReadyUpTo(s, n - 1, net, offer);
      assert s[..n] == s[..n - 1] + [s[n - 1]];
    }
  }

  lemma NothingReady(s: seq<int>, net: Net, offer: Offer)
    ensures Survivors(s, |s|, {}, net) == s && Replies(s, |s|, {}, net, offer) == []
    ensures !Answers(s, |s|, {}, net, offer.port)
  {
    NothingReadyUpTo(s, |s|, net, offer);
    assert s[..|s|] == s;
  }

  ghost function OfferOf(r: Record): Offer
    reads r
  {
    Offer(r.shadowfd, r.comfd, r.port)
  }

  /** The connection is ready, and is not the listener. */
  predicate IsReady(c: int, bits: set<int>, comfd: int) { c in bits && c != comfd }

  /** The connection that was accepted on the listener. */
  predicate Joins(c: int, bits: set<int>, net: Net, comfd: int) { comfd in bits && net.accepted != -1 && c == net.accepted }

  /** What a record's connections come to, in plain terms: `was` and `now` are its list before and
      after. The accepted connection joins, ready ones whose peer closed leave; on each of the ready
      ones with a message, the socket that is served and then the listener are sent, and nothing on
      any other. */
  ghost predicate Conversed(was: seq<int>, bits: set<int>, net: Net, shadowfd: int, comfd: int, port: int,
                            now: seq<int>, sent: seq<Sent>)
  {
    && (forall c :: c in now <==>
          (c in was || Joins(c, bits, net, comfd)) && !(IsReady(c, bits, comfd) && net.recv(c).Closed?))
    && (forall c ::
          var asked := (c in was || Joins(c, bits, net, comfd)) && IsReady(c, bits, comfd);
          On(sent, c) == if asked && net.recv(c).Message? then [Sent(c, shadowfd, port), Sent(c, comfd, port)]
                         else if asked && net.recv(c).Failed? then [Sent(c, shadowfd, -1), Sent(c, comfd, -1)]
                         else [])
  }

  lemma {:induction false} AnswersIff(s: seq<int>, n: nat, ready: set<int>, net: Net, port: int)
    requires n <= |s|
    ensures Answers(s, n, ready, net, port) <==> exists c :: c in s[..n] && c in ready && net.recv(c).Message? && port != -1
  {
    if n > 0 {
      AnswersIff(s, n - 1, ready, net, port);
      var d := s[n - 1];
      assert s[..n] == s[..n - 1] + [d] && d in s[..n];
      assert forall c :: c in s[..n] <==> c in s[..n - 1] || c == d;
      if exists c :: c in s[..n] && c in ready && net.recv(c).Message? && port != -1 {
        var c :| c in s[..n] && c in ready && net.recv(c).Message? && port != -1;
        assert c in s[..n - 1] || c == d;
      }
    }
  }

  lemma FullIs(v: View, bits: set<int>, net: Net, c: int)
    ensures c in Connections(v, bits, net) <==> c in v.comfds || Joins(c, bits, net, v.comfd)
    ensures c in bits - {v.comfd} <==> IsReady(c, bits, v.comfd)
  {
    var full := Connections(v, bits, net);
    assert Joins(c, bits, net, v.comfd) ==> full[|v.comfds|] == c;
  }

  lemma ConversedAt(v: View, bits: set<int>, net: Net, offer: Offer, c: int)
    requires Distinct(Connections(v, bits, net)) && offer.comfd == v.comfd
    ensures var full, ready := Connections(v, bits, net), bits - {v.comfd};
            var asked := (c in v.comfds || Joins(c, bits, net, v.comfd)) && IsReady(c, bits, v.comfd);
            && (c in After(v, bits, net) <==>
                  (c in v.comfds || Joins(c, bits, net, v.comfd)) && !(IsReady(c, bits, v.comfd) && net.recv(c).Closed?))
            && On(Replies(full, |full|, ready, net, offer), c) ==
                 if asked && net.recv(c).Message? then [Sent(c, offer.shadowfd, offer.port), Sent(c, offer.comfd, offer.port)]
                 else if asked && net.recv(c).Failed? then [Sent(c, offer.shadowfd, -1), Sent(c, offer.comfd, -1)]
                 else []
  {
    var full, ready := Connections(v, bits, net), bits - {v.comfd};
    assert full[..|full|] == full;
    FullIs(v, bits, net, c);
    SurvivorsAre(full, |full|, ready, net);
    OnReplies(full, |full|, ready, net, offer, c);
    OnAnswer(c, net.recv(c), offer, c);
    hide Connections, Survivors, Replies, Distinct, Answer, On, IsReady, Joins;
  }

  lemma AllConversed(v: View, bits: set<int>, net: Net, offer: Offer)
    requires Distinct(Connections(v, bits, net)) && offer.comfd == v.comfd
    ensures var full, ready := Connections(v, bits, net), bits - {v.comfd};
            Conversed(v.comfds, bits, net, offer.shadowfd, offer.comfd, offer.port, After(v, bits, net), Replies(full, |full|, ready, net, offer))
  {
    hide After, Connections, Replies, Distinct, IsReady, Joins, On;
    var full, ready := Connections(v, bits, net), bits - {v.comfd};
    forall c
      ensures c in After(v, bits, net) <==>
              (c in v.comfds || Joins(c, bits, net, v.comfd)) && !(IsReady(c, bits, v.comfd) && net.recv(c).Closed?)
      ensures var asked := (c in v.comfds || Joins(c, bits, net, v.comfd)) && IsReady(c, bits, v.comfd);
              On(Replies(full, |full|, ready, net, offer), c) ==
                if asked && net.recv(c).Message? then [Sent(c, offer.shadowfd, offer.port), Sent(c, offer.comfd, offer.port)]
                else if asked && net.recv(c).Failed? then [Sent(c, offer.shadowfd, -1), Sent(c, offer.comfd, -1)]
                else []
    {
      ConversedAt(v, bits, net, offer, c);
    }
  }

  lemma InPlainTerms(v: View, bits: set<int>, net: Net, offer: Offer)
    requires Distinct(Connections(v, bits, net)) && offer.comfd == v.comfd
    ensures var full, ready := Connections(v, bits, net), bits - {v.comfd};
            && Conversed(v.comfds, bits, net, offer.shadowfd, offer.comfd, offer.port, After(v, bits, net), Replies(full, |full|, ready, net, offer))
            && (Answers(full, |full|, ready, net, offer.port) <==>
                  || (exists c :: c in v.comfds && IsReady(c, bits, v.comfd) && net.recv(c).Message? && offer.port != -1)
                  || (exists c :: Joins(c, bits, net, v.comfd) && IsReady(c, bits, v.comfd) && net.recv(c).Message? && offer.port != -1))
  {
    hide After, Connections, Replies, Answers, Distinct, IsReady, Joins, On;
    var full, ready := Connections(v, bits, net), bits - {v.comfd};
    assert full[..|full|] == full;
    AnswersIff(full, |full|, ready, net, offer.port);
    forall c
      ensures c in full <==> c in v.comfds || Joins(c, bits, net, v.comfd)
      ensures c in ready <==> IsReady(c, bits, v.comfd)
    {
      FullIs(v, bits, net, c);
    }
    assert Conversed(v.comfds, bits, net, offer.shadowfd, offer.comfd, offer.port, After(v, bits, net), Replies(full, |full|, ready, net, offer)) by {
      AllConversed(v, bits, net, offer);
    }
  }

  /** Memory and cursor are where the walk is. */
  ghost predicate Reached(r: Record, readfds: FdSet, cur: Node?<int>, w: Walk)
    reads r, r.shared, r.comfds, readfds
  {
    && r.comfds.Valid() && r.comfds.Items() == w.items && cur == At(r.comfds.nodes, w.at)
    && readfds.bits == w.bits && (r.shared.Status(), r.Flags()) == w.so
  }

  /** The answer to a request that could be read, or the refusal of one that could not. */
  method Reply(r: Record, conn: int, failed: bool) returns (sent: seq<Sent>)
    modifies r`transfer, r.shared`transfer
    ensures (r.shared.Status(), r.Flags()) ==
            if !failed && r.port != -1 then Respond(old(r.shared.Status()), old(r.Flags()))
            else (old(r.shared.Status()), old(r.Flags()))
    ensures var port := if failed then -1 else r.port;
            sent == [Sent(conn, r.shadowfd, port), Sent(conn, r.comfd, port)]
  {
    var port := if failed then -1 else r.port;
    if port != -1 {
      Core.Announce(r);
    }
    sent := [Sent(conn, r.shadowfd, port), Sent(conn, r.comfd, port)];
  }

  class Selector {
    var correction: int
    var maxFds: int
    var transfer: bool

    ghost function Watched(bits: set<int>): Watch
      reads this
    {
      Watch(bits, maxFds, transfer)
    }

    /** `dsu_pre_select`. Shared memory and the lock are what the other processes have left. */
    method PreSelect(r: Record, readfds: FdSet?, seen: Seen)
      modifies this`maxFds, this`transfer, readfds, r`locked, r.shared
      ensures readfds != null ==> Watched(readfds.bits) == Pre(ViewOf(r), old(Watched(readfds.bits)), seen)
      ensures readfds == null ==> maxFds == old(maxFds) && transfer == old(transfer)
      ensures r.shared.Status() == seen.status
      ensures var got := readfds != null && r.fd in old(Bits(readfds)) && r.monitoring && r.blocking
                         && (old(transfer) || seen.status.transfer > 0) && seen.fdSem > 0;
              r.shared.fdSem == seen.fdSem - (if got then 1 else 0) && (r.locked <==> old(r.locked) || got)
    {
      r.shared.Observe(seen);
      if readfds != null && r.fd in readfds.bits {
        readfds.bits := readfds.bits - {r.fd};
        if r.monitoring {
          if r.shared.transfer > 0 { transfer := true; }
          if transfer && r.blocking {
            var acquired := Core.TryLockFd(r);
            if acquired {
              readfds.bits := readfds.bits + {r.shadowfd};
              if maxFds < r.shadowfd + 1 { maxFds := r.shadowfd + 1; }
            }
          } else {
            readfds.bits := readfds.bits + {r.shadowfd};
            if maxFds < r.shadowfd + 1 { maxFds := r.shadowfd + 1; }
          }
        }
      }
    }

    /** The internal connections join the set. */
    method WatchAll(cs: seq<int>, readfds: FdSet)
      modifies this`maxFds, readfds
      ensures readfds.bits == old(readfds.bits) + Elements(cs) && maxFds == CoverAll(old(maxFds), cs)
    {
      for i := 0 to |cs|
        invariant readfds.bits == old(readfds.bits) + Elements(cs[..i]) && maxFds == CoverAll(old(maxFds), cs[..i])
      {
        CoverAppend(old(maxFds), cs[..i], [cs[i]]);
        assert cs[..i] + [cs[i]] == cs[..i + 1] && [cs[i]][..0] == [];
        readfds.bits := readfds.bits + {cs[i]};
        if maxFds < cs[i] + 1 { maxFds := cs[i] + 1; }
      }
      assert cs[..|cs|] == cs;
    }

    /** `dsu_sniff_conn`. */
    method SniffConn(r: Record, readfds: FdSet?)
      requires r.comfds.Valid()
      modifies this`maxFds, readfds
      ensures readfds != null ==> Watched(readfds.bits) == Sniff(ViewOf(r), old(Watched(readfds.bits)))
      ensures readfds == null ==> maxFds == old(maxFds)
    {
      if readfds == null { return; }
      ghost var v, w := ViewOf(r), Watched(readfds.bits);
      if r.monitoring {
        readfds.bits := readfds.bits + {r.comfd};
        if maxFds < r.comfd + 1 { maxFds := r.comfd + 1; }
      }
      ghost var w1 := Watched(readfds.bits);
      assert w1 == if v.monitoring then w.(bits := w.bits + {v.comfd}, maxFds := Cover(w.maxFds, v.comfd)) else w;
      var cs := r.comfds.Walk();
      assert cs == v.comfds;
      WatchAll(cs, readfds);
    }

    /** `dsu_post_select`. */
    method PostSelect(r: Record, readfds: FdSet?)
      modifies readfds, r`locked, r.shared`fdSem
      ensures readfds != null ==> readfds.bits == Post(ViewOf(r), old(readfds.bits))
      ensures (r.shared.fdSem, r.Flags()) == Unlock(old(r.shared.fdSem), old(r.Flags()))
    {
      Core.UnlockFd(r);
      if readfds != null && r.shadowfd in readfds.bits {
        readfds.bits := readfds.bits - {r.shadowfd};
        readfds.bits := readfds.bits + {r.fd};
      }
    }

    /** One connection of the loop of `dsu_handle_conn`; the cursor moves to the node after it,
        whether or not the current one is removed and freed. */
    method HandleConnection(r: Record, node: Node<int>, readfds: FdSet, net: Net, ghost w: Walk)
      returns (cur: Node?<int>, sent: seq<Sent>, ghost w': Walk)
      requires Reached(r, readfds, node, w) && FirstIndex(w.items, node.item) == w.at
      modifies this`correction, readfds, r`transfer, r.shared`transfer, r.comfds
      ensures w' == Visit(node.item, w, net, OfferOf(r)) && Reached(r, readfds, cur, w')
      ensures correction == old(correction) + w'.cleared - w.cleared && w'.sent == w.sent + sent
    {
      hide Linked, Distinct;
      var c := node.item;
      sent := [];
      w' := Visit(c, w, net, OfferOf(r));
      CurrentNode(r.comfds, node, w.at);
      ItemsWithout(r.comfds.nodes, w.at);
      cur := r.comfds.next[node];
      if c in readfds.bits {
        readfds.bits := readfds.bits - {c};
        correction := correction + 1;
        var answer := net.recv(c);
        if answer.Closed? {
          RemoveFd(r.comfds, c);
        } else if !answer.WouldBlock? {
          sent := Reply(r, c, answer.Failed?);
        }
      }
    }

    /** The loop of `dsu_handle_conn` over the internal connections. It removes the current node
        while it walks, yet visits every connection once. */
    method HandleConnections(r: Record, readfds: FdSet, net: Net) returns (sent: seq<Sent>)
      requires r.comfds.Valid() && Distinct(r.comfds.Items())
      modifies this`correction, readfds, r`transfer, r.shared`transfer, r.comfds
      ensures var full, ready := old(r.comfds.Items()), old(readfds.bits);
              && r.comfds.Valid() && r.comfds.Items() == Survivors(full, |full|, ready, net)
              && readfds.bits == ready - Elements(full)
              && correction == old(correction) + |ready| - |readfds.bits|
              && sent == Replies(full, |full|, ready, net, OfferOf(r))
              && (r.shared.Status(), r.Flags()) ==
                 if Answers(full, |full|, ready, net, r.port) then Respond(old(r.shared.Status()), old(r.Flags()))
                 else (old(r.shared.Status()), old(r.Flags()))
    {
      hide Visit, WalkTo, Linked, ItemsOf, Distinct;
      ghost var full, ready, so, offer := r.comfds.Items(), readfds.bits, (r.shared.Status(), r.Flags()), OfferOf(r);
      ghost var j, w, w0 := 0, Start(full, ready, so), Start(full, ready, so);
      WalkStarts(w0, full, net, offer);
      sent := [];
      var cur := r.comfds.head;
      while cur != null
        invariant 0 <= j <= |full| && w == WalkTo(full, j, w0, net, offer) && OfferOf(r) == offer
        invariant Reached(r, readfds, cur, w) && sent == w.sent
        invariant correction == old(correction) + w.cleared
        decreases |full| - j
      {
        WalkAt(full, j, ready, so, net, offer);
        WalkSteps(full, j, w0, net, offer);
        var more;
        cur, more, w := HandleConnection(r, cur, readfds, net, w);
        sent, j := sent + more, j + 1;
      }
      WalkEnds(full, j, ready, so, net, offer);
    }

    /** A ready listener: its bit is cleared, and a connection that was accepted is listed. */
    method AcceptConn(r: Record, readfds: FdSet, accepted: int)
      requires r.comfds.Valid()
      modifies this`correction, readfds, r.comfds
      ensures r.comfds.Valid()
      ensures r.comfds.Items() == old(r.comfds.Items())
                                  + if r.comfd in old(readfds.bits) && accepted != -1 then [accepted] else []
      ensures readfds.bits == old(readfds.bits) - {r.comfd}
      ensures correction == old(correction) + |old(readfds.bits)| - |readfds.bits|
    {
      if r.comfd in readfds.bits {
        correction := correction + 1;
        if accepted != -1 {
          r.comfds.Add(accepted);
        }
        readfds.bits := readfds.bits - {r.comfd};
      }
    }

    /** `dsu_handle_conn`: a connection is accepted when the listener is ready, the listener's bit
        is cleared, then the internal connections are walked. `correction` rises by the number of
        bits cleared. */
    method HandleConn(r: Record, readfds: FdSet?, net: Net) returns (sent: seq<Sent>)
      requires r.comfds.Valid() && Distinct(Connections(ViewOf(r), Bits(readfds), net))
      modifies this`correction, readfds, r`transfer, r.shared`transfer, r.comfds
      ensures r.comfds.Valid() && r.comfds.Items() == After(old(ViewOf(r)), old(Bits(readfds)), net)
      ensures Bits(readfds) == Handle(old(ViewOf(r)), old(Bits(readfds)), net)
      ensures correction == old(correction) + |old(Bits(readfds))| - |Bits(readfds)|
      ensures var full, ready := Connections(old(ViewOf(r)), old(Bits(readfds)), net), old(Bits(readfds)) - {r.comfd};
              && sent == Replies(full, |full|, ready, net, OfferOf(r))
              && (r.shared.Status(), r.Flags()) ==
                 if Answers(full, |full|, ready, net, r.port) then Respond(old(r.shared.Status()), old(r.Flags()))
                 else (old(r.shared.Status()), old(r.Flags()))
      ensures Conversed(old(r.comfds.Items()), old(Bits(readfds)), net, r.shadowfd, r.comfd, r.port, r.comfds.Items(), sent)
      ensures var told := exists c :: c in old(r.comfds.Items()) && IsReady(c, old(Bits(readfds)), r.comfd)
                                      && net.recv(c).Message? && r.port != -1;
              var tells := exists c :: Joins(c, old(Bits(readfds)), net, r.comfd) && IsReady(c, old(Bits(readfds)), r.comfd)
                                       && net.recv(c).Message? && r.port != -1;
              && r.transfer == (old(r.transfer) || told || tells)
              && r.shared.transfer == old(r.shared.transfer) + (if !old(r.transfer) && (told || tells) then 1 else 0)
    {
      ghost var v, bits := ViewOf(r), Bits(readfds);
      ghost var full, ready := Connections(v, bits, net), bits - {v.comfd};
      sent := [];
      if readfds == null {
        assert ready == {};
        NothingReady(v.comfds, net, OfferOf(r));
      } else {
        AcceptConn(r, readfds, net.accepted);
        assert r.comfds.Items() == full && readfds.bits == ready;
        sent := HandleConnections(r, readfds, net);
      }
      InPlainTerms(v, bits, net, OfferOf(r));
    }
  }
}
