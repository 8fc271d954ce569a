/** Which descriptors the library keeps track of, and where: each in one place only. */
module TablesSpec {
  import opened State

  /** What a bound record tracks. */
  datatype Row = Row(fd: int, shadowfd: int, comfd: int, monitoring: bool, comfds: seq<int>, fds: seq<int>)

  /** The unbound sockets and the bound ones. */
  datatype Tables = Tables(sockets: seq<int>, binds: seq<Row>)

  function Fds(rows: seq<Row>): (s: seq<int>)
    ensures |s| == |rows| && forall i :: 0 <= i < |s| ==> s[i] == rows[i].fd
  {
    seq(|rows|, i requires 0 <= i < |rows| => rows[i].fd)
  }

  predicate Tracks(row: Row, d: int, kind: Kind) {
    match kind
    case Client => d in row.fds
    case Listener => row.comfd == d && row.monitoring
    case Internal => d in row.comfds
  }

  /** The first row that tracks `d` in that place, or the length. */
  function First(rows: seq<Row>, d: int, kind: Kind): (i: nat)
    ensures i <= |rows| && (i < |rows| ==> Tracks(rows[i], d, kind))
    ensures forall j :: 0 <= j < i ==> !Tracks(rows[j], d, kind)
  {
    if rows == [] then 0 else if Tracks(rows[0], d, kind) then 0 else 1 + First(rows[1..], d, kind)
  }

  // ---------------------------------------------------------------- how often a descriptor is tracked

  function Once(b: bool): nat { if b then 1 else 0 }

  function Times(s: seq<int>, d: int): nat {
    if s == [] then 0 else Times(s[..|s| - 1], d) + Once(s[|s| - 1] == d)
  }

  function RowTimes(row: Row, d: int): nat {
    Once(row.fd == d) + Once(row.monitoring && row.comfd == d) + Times(row.comfds, d) + Times(row.fds, d)
  }

  function BindTimes(rows: seq<Row>, d: int): nat {
    if rows == [] then 0 else BindTimes(rows[..|rows| - 1], d) + RowTimes(rows[|rows| - 1], d)
  }

  /** In how many places `d` is tracked. */
  function Tracked(t: Tables, d: int): nat { Times(t.sockets, d) + BindTimes(t.binds, d) }

  /** Every descriptor is tracked in at most one place. */
  ghost predicate Partition(t: Tables) { forall d :: Tracked(t, d) <= 1 }

  lemma {:induction false} TimesIn(s: seq<int>, d: int)
    ensures Times(s, d) > 0 <==> d in s
  {
    if s != [] { TimesIn(s[..|s| - 1], d); }
  }

  lemma {:induction false} TimesWithout(s: seq<int>, i: nat, d: int)
    requires i < |s|
    ensures Times(Without(s, i), d) + Once(s[i] == d) == Times(s, d)
  {
    var n := |s| - 1;
    WithoutLast(s, i);
    hide Without;
    if i < n { TimesWithout(s[..n], i, d); }
  }

  lemma WithoutLast<T>(s: seq<T>, i: nat)
    requires i < |s|
    ensures var n, r := |s| - 1, Without(s, i);
            |r| == n && if i < n then r[..n - 1] == Without(s[..n], i) && r[n - 1] == s[n] else r == s[..n]
  {
  }

  lemma {:induction false} BindTimesWithout(rows: seq<Row>, i: nat, d: int)
    requires i < |rows|
    ensures BindTimes(Without(rows, i), d) + RowTimes(rows[i], d) == BindTimes(rows, d)
  {
    var n := |rows| - 1;
    WithoutLast(rows, i);
    hide Without, RowTimes;
    if i < n { BindTimesWithout(rows[..n], i, d); }
  }

  lemma {:induction false} BindTimesUpdate(rows: seq<Row>, i: nat, row: Row, d: int)
    requires i < |rows|
    ensures BindTimes(rows[i := row], d) + RowTimes(rows[i], d) == BindTimes(rows, d) + RowTimes(row, d)
  {
    var n := |rows| - 1;
    if i < n {
      BindTimesUpdate(rows[..n], i, row, d);
      assert rows[i := row][..n] == rows[..n][i := row];
    } else {
      assert rows[i := row][..n] == rows[..n];
    }
  }

  lemma {:induction false} BindTimesPositive(rows: seq<Row>, d: int)
    ensures BindTimes(rows, d) > 0 <==> exists i :: 0 <= i < |rows| && RowTimes(rows[i], d) > 0
  {
    if rows != [] {
      var n := |rows| - 1;
      BindTimesPositive(rows[..n], d);
      assert forall i :: 0 <= i < n ==> rows[..n][i] == rows[i];
    }
  }

  // ---------------------------------------------------------------- the operations

  /** `socket` */
  function Opened(t: Tables, d: int): Tables { t.(sockets := t.sockets + [d]) }

  /** `bind`: the socket moves to the bound ones, with the listener it made or inherited. */
  function Bound(t: Tables, d: int, shadowfd: int, comfd: int): Tables {
    if d !in t.sockets then t
    else Tables(RemoveFirst(t.sockets, d), t.binds + [Row(d, shadowfd, comfd, true, [], [])])
  }

  /** `accept` on a descriptor `d`; a connection on an unbound descriptor is not tracked. */
  function Accepted(t: Tables, d: int, session: int): Tables {
    var b := FirstIndex(Fds(t.binds), d);
    if b == |t.binds| then t else t.(binds := t.binds[b := t.binds[b].(fds := t.binds[b].fds + [session])])
  }

  /** `close` */
  function Closed(t: Tables, d: int): Tables {
    var b, l := FirstIndex(Fds(t.binds), d), First(t.binds, d, Listener);
    var i, c := First(t.binds, d, Internal), First(t.binds, d, Client);
    if 0 <= d <= 2 then t
    else if d in t.sockets then t.(sockets := RemoveFirst(t.sockets, d))
    else if b < |t.binds| then t.(binds := Without(t.binds, b))
    else if l < |t.binds| then t.(binds := t.binds[l := t.binds[l].(monitoring := false)])
    else if i < |t.binds| then t.(binds := t.binds[i := t.binds[i].(comfds := RemoveFirst(t.binds[i].comfds, d))])
    else if c < |t.binds| then t.(binds := t.binds[c := t.binds[c].(fds := RemoveFirst(t.binds[c].fds, d))])
    else t
  }

  /** Opening tracks a new descriptor in one place. */
  lemma OpenedTracks(t: Tables, d: int, x: int)
    ensures Tracked(Opened(t, d), x) == Tracked(t, x) + Once(x == d)
  {
    assert (t.sockets + [d])[..|t.sockets|] == t.sockets;
  }

  /** Binding moves the descriptor and adds the listener; the shadow descriptor is not tracked. */
  lemma BoundTracks(t: Tables, d: int, shadowfd: int, comfd: int, x: int)
    requires d in t.sockets
    ensures Tracked(Bound(t, d, shadowfd, comfd), x) == Tracked(t, x) + Once(x == comfd)
  {
    var row := Row(d, shadowfd, comfd, true, [], []);
    TimesWithout(t.sockets, FirstIndex(t.sockets, d), x);
    assert (t.binds + [row])[..|t.binds|] == t.binds;
  }

  lemma AcceptedTracks(t: Tables, d: int, session: int, x: int)
    ensures Tracked(Accepted(t, d, session), x)
         == Tracked(t, x) + if d in Fds(t.binds) then Once(x == session) else 0
  {
    var b := FirstIndex(Fds(t.binds), d);
    if b < |t.binds| {
      var row := t.binds[b];
      assert (row.fds + [session])[..|row.fds|] == row.fds;
      BindTimesUpdate(t.binds, b, row.(fds := row.fds + [session]), x);
    }
  }

  /** Closing takes one mention of the descriptor away, and, of a bound socket, everything that its
      record tracks. */
  lemma ClosedTracks(t: Tables, d: int, x: int)
    requires !(0 <= d <= 2)
    ensures var b := FirstIndex(Fds(t.binds), d);
            Tracked(Closed(t, d), x) ==
              if d !in t.sockets && b < |t.binds| then Tracked(t, x) - RowTimes(t.binds[b], x)
              else Tracked(t, x) - Once(x == d && Tracked(t, d) > 0)
  {
    var b, l := FirstIndex(Fds(t.binds), d), First(t.binds, d, Listener);
    var i, c := First(t.binds, d, Internal), First(t.binds, d, Client);
    TimesIn(t.sockets, d);
    BindTimesPositive(t.binds, d);
    hide Without, Times, BindTimes, First, FirstIndex;
    if d in t.sockets {
      TimesWithout(t.sockets, FirstIndex(t.sockets, d), x);
    } else if b < |t.binds| {
      BindTimesWithout(t.binds, b, x);
    } else if l < |t.binds| {
      BindTimesUpdate(t.binds, l, t.binds[l].(monitoring := false), x);
      assert RowTimes(t.binds[l], d) > 0;
    } else if i < |t.binds| {
      var row := t.binds[i];
      TimesIn(row.comfds, d);
      TimesWithout(row.comfds, FirstIndex(row.comfds, d), x);
      BindTimesUpdate(t.binds, i, row.(comfds := RemoveFirst(row.comfds, d)), x);
      assert RowTimes(row, d) > 0;
    } else if c < |t.binds| {
      var row := t.binds[c];
      TimesIn(row.fds, d);
      TimesWithout(row.fds, FirstIndex(row.fds, d), x);
      BindTimesUpdate(t.binds, c, row.(fds := RemoveFirst(row.fds, d)), x);
      assert RowTimes(row, d) > 0;
    } else {
      forall j | 0 <= j < |t.binds| ensures RowTimes(t.binds[j], d) == 0 {
        TimesIn(t.binds[j].comfds, d);
        TimesIn(t.binds[j].fds, d);
        assert Fds(t.binds)[j] != d;
      }
    }
  }

  // ---------------------------------------------------------------- over whole runs

  /** What changes the tables: the application's calls, and the library's own moves on a bound
      record - it quits, accepts an internal connection, or drops one that the peer closed. */
  datatype Call =
    | Socket(d: int)
    | Bind(d: int, shadowfd: int, comfd: int)
    | Accept(d: int, session: int)
    | Close(d: int)
    | Quit(row: nat)
    | Welcome(row: nat, conn: int)
    | Drop(row: nat, conn: int)

  function Do(t: Tables, call: Call): Tables {
    match call
    case Socket(d) => Opened(t, d)
    case Bind(d, shadowfd, comfd) => Bound(t, d, shadowfd, comfd)
    case Accept(d, session) => Accepted(t, d, session)
    case Close(d) => Closed(t, d)
    case Quit(i) => if i < |t.binds| then t.(binds := t.binds[i := t.binds[i].(monitoring := false)]) else t
    case Welcome(i, c) =>
      if i < |t.binds| then t.(binds := t.binds[i := t.binds[i].(comfds := t.binds[i].comfds + [c])]) else t
    case Drop(i, c) =>
      if i < |t.binds| then t.(binds := t.binds[i := t.binds[i].(comfds := RemoveFirst(t.binds[i].comfds, c))]) else t
  }

  /** The kernel hands out no descriptor that is tracked. */
  predicate FreshFor(t: Tables, call: Call) {
    match call
    case Socket(d) => Tracked(t, d) == 0
    case Bind(_, _, comfd) => Tracked(t, comfd) == 0
    case Accept(_, session) => Tracked(t, session) == 0
    case Welcome(_, c) => Tracked(t, c) == 0
    case _ => true
  }

  lemma OwnMoveTracks(t: Tables, call: Call, x: int)
    requires call.Quit? || call.Welcome? || call.Drop?
    ensures Tracked(Do(t, call), x) <= Tracked(t, x) + if call.Welcome? then Once(x == call.conn) else 0
  {
    hide BindTimes, FirstIndex;
    if call.row < |t.binds| {
      var row := t.binds[call.row];
      match call {
        case Quit(i) => BindTimesUpdate(t.binds, i, row.(monitoring := false), x);
        case Welcome(i, c) =>
          assert (row.comfds + [c])[..|row.comfds|] == row.comfds;
          BindTimesUpdate(t.binds, i, row.(comfds := row.comfds + [c]), x);
        case Drop(i, c) =>
          if FirstIndex(row.comfds, c) < |row.comfds| { TimesWithout(row.comfds, FirstIndex(row.comfds, c), x); }
          BindTimesUpdate(t.binds, i, row.(comfds := RemoveFirst(row.comfds, c)), x);
      }
    }
  }

  lemma CallKeepsPartition(t: Tables, call: Call)
    requires Partition(t) && FreshFor(t, call)
    ensures Partition(Do(t, call))
  {
    hide Opened, Bound, Accepted, Closed, Tracked;
    forall x ensures Tracked(Do(t, call), x) <= 1 {
      assert Tracked(t, x) <= 1;
      match call {
        case Socket(d) => OpenedTracks(t, d, x);
        case Bind(d, shadowfd, comfd) =>
          if d in t.sockets { BoundTracks(t, d, shadowfd, comfd, x); } else { UnknownBind(t, d, shadowfd, comfd); }
        case Accept(d, session) => AcceptedTracks(t, d, session, x);
        case Close(d) => if 0 <= d <= 2 { StandardClose(t, d); } else { ClosedTracks(t, d, x); }
        case _ => OwnMoveTracks(t, call, x);
      }
    }
  }

  lemma UnknownBind(t: Tables, d: int, shadowfd: int, comfd: int)
    requires d !in t.sockets
    ensures Bound(t, d, shadowfd, comfd) == t
  {
  }

  lemma StandardClose(t: Tables, d: int)
    requires 0 <= d <= 2
    ensures Closed(t, d) == t
  {
  }

  function Run(t: Tables, calls: seq<Call>): Tables
    decreases |calls|
  {
    if calls == [] then t else Run(Do(t, calls[0]), calls[1..])
  }

  ghost predicate AllFresh(t: Tables, calls: seq<Call>)
    decreases |calls|
  {
    calls == [] || (FreshFor(t, calls[0]) && AllFresh(Do(t, calls[0]), calls[1..]))
  }

  /** In every run every descriptor is tracked in at most one place. */
  lemma {:induction false} PartitionInEveryRun(t: Tables, calls: seq<Call>)
    requires Partition(t) && AllFresh(t, calls)
    ensures Partition(Run(t, calls))
    decreases |calls|
  {
    if calls != [] {
      CallKeepsPartition(t, calls[0]);
      PartitionInEveryRun(Do(t, calls[0]), calls[1..]);
    }
  }

  ghost predicate Findable(t: Tables, d: int) {
    || d in t.sockets || d in Fds(t.binds)
    || exists i, kind :: 0 <= i < |t.binds| && Tracks(t.binds[i], d, kind)
  }

  lemma FindableIffTracked(t: Tables, d: int)
    ensures Findable(t, d) <==> Tracked(t, d) > 0
  {
    TimesIn(t.sockets, d);
    BindTimesPositive(t.binds, d);
    forall i | 0 <= i < |t.binds|
      ensures RowTimes(t.binds[i], d) > 0 <==> t.binds[i].fd == d || exists kind :: Tracks(t.binds[i], d, kind)
    {
      var row := t.binds[i];
      TimesIn(row.comfds, d);
      TimesIn(row.fds, d);
      assert Tracks(row, d, Client) <==> d in row.fds;
      assert Tracks(row, d, Listener) <==> row.comfd == d && row.monitoring;
      assert Tracks(row, d, Internal) <==> d in row.comfds;
    }
    assert forall i :: 0 <= i < |t.binds| ==> Fds(t.binds)[i] == t.binds[i].fd;
  }

  /** After `close(d)` no search finds `d`, unless it was a tracked standard descriptor. */
  lemma ClosedIsForgottenIff(t: Tables, d: int)
    requires Partition(t)
    ensures !Findable(Closed(t, d), d) <==> !(0 <= d <= 2 && Findable(t, d))
  {
    FindableIffTracked(t, d);
    FindableIffTracked(Closed(t, d), d);
    assert Tracked(t, d) <= 1;
    if 0 <= d <= 2 {
      StandardClose(t, d);
    } else {
      ClosedTracks(t, d, d);
      var b := FirstIndex(Fds(t.binds), d);
      if b < |t.binds| { assert RowTimes(t.binds[b], d) > 0; }
    }
  }

  /** Closing forgets nothing else, except when a bound socket is closed that still has a listener
      or connections: they stay open, and no search finds them any more. */
  lemma OthersAreKeptIff(t: Tables, d: int)
    requires Partition(t) && !(0 <= d <= 2)
    ensures var b := FirstIndex(Fds(t.binds), d);
            ((forall x :: x != d ==> (Findable(Closed(t, d), x) <==> Findable(t, x)))
             <==> d in t.sockets || b == |t.binds|
                  || (!t.binds[b].monitoring && t.binds[b].comfds == [] && t.binds[b].fds == []))
  {
    var b := FirstIndex(Fds(t.binds), d);
    forall x ensures Findable(t, x) <==> Tracked(t, x) > 0 { FindableIffTracked(t, x); }
    forall x ensures Findable(Closed(t, d), x) <==> Tracked(Closed(t, d), x) > 0 { FindableIffTracked(Closed(t, d), x); }
    if d !in t.sockets && b < |t.binds| {
      var row := t.binds[b];
      forall x ensures RowTimes(row, x) <= Tracked(t, x) <= 1 { BindTimesWithout(t.binds, b, x); }
      forall x ensures Tracked(Closed(t, d), x) == Tracked(t, x) - RowTimes(row, x) { ClosedTracks(t, d, x); }
      if !row.monitoring && row.comfds == [] && row.fds == [] {
        assert forall x :: x != d ==> RowTimes(row, x) == 0;
      } else {
        var x := if row.monitoring then row.comfd else if row.comfds != [] then row.comfds[0] else row.fds[0];
        TimesIn(row.comfds, x);
        TimesIn(row.fds, x);
        assert RowTimes(row, x) > 0 && RowTimes(row, d) > 0;
        assert x != d;
      }
    } else {
      forall x | x != d ensures Tracked(Closed(t, d), x) == Tracked(t, x) { ClosedTracks(t, d, x); }
    }
  }
}
