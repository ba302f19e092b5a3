/** ConnectionTracker and the connection callbacks of pkg/ftp/driver.go. A connect and a
    disconnect are two atomic steps each; steps of different connections interleave freely. */
module ConnTracker {
  import opened MapSum

  // A limit of 0 or less means unlimited.
  datatype Limits = Limits(perIP: int, total: int)

  datatype Tracker = Tracker(counts: map<string, int>, total: int)

  function Count(t: Tracker, ip: string): int {
    if ip in t.counts then t.counts[ip] else 0
  }

  predicate Admits(l: Limits, t: Tracker, ip: string) {
    && !(l.total > 0 && t.total >= l.total)
    && !(l.perIP > 0 && ip in t.counts && t.counts[ip] >= l.perIP)
  }

  function Acquire(t: Tracker, ip: string): Tracker {
    Tracker(t.counts[ip := Count(t, ip) + 1], t.total + 1)
  }

  function Release(t: Tracker, ip: string): Tracker {
    var counts :=
      if ip !in t.counts || t.counts[ip] <= 0 then t.counts
      else if t.counts[ip] == 1 then t.counts - {ip}
      else t.counts[ip := t.counts[ip] - 1];
    Tracker(counts, if t.total > 0 then t.total - 1 else t.total)
  }

  // The janitor drops the entries whose count is not positive.
  function Swept(t: Tracker): Tracker {
    Tracker(map ip | ip in t.counts && t.counts[ip] > 0 :: t.counts[ip], t.total)
  }

  class ConnectionTracker {
    const limits: Limits
    var ipConnections: map<string, int>
    var globalCount: int

    constructor (limits: Limits)
      ensures this.limits == limits && Model() == Tracker(map[], 0)
    {
      this.limits, ipConnections, globalCount := limits, map[], 0;
    }

    function Model(): Tracker
      reads this
    {
      Tracker(ipConnections, globalCount)
    }

    method AllowConnection(ip: string) returns (allowed: bool)
      modifies this
      ensures allowed <==>
                && (limits.total <= 0 || old(globalCount) < limits.total)
                && (limits.perIP <= 0 || ip !in old(ipConnections) || old(ipConnections)[ip] < limits.perIP)
      ensures allowed == Admits(limits, old(Model()), ip)
      ensures Model() == if allowed then Acquire(old(Model()), ip) else old(Model())
    {
      if limits.total > 0 && globalCount >= limits.total {
        return false;
      }
      var count := if ip in ipConnections then ipConnections[ip] else 0;
      if limits.perIP > 0 && ip in ipConnections && count >= limits.perIP {
        return false;
      }
      ipConnections := ipConnections[ip := count + 1];
      globalCount := globalCount + 1;
      allowed := true;
    }

    method ReleaseConnection(ip: string)
      modifies this
      ensures Model() == Release(old(Model()), ip)
    {
      if ip in ipConnections && ipConnections[ip] > 0 {
        var count := ipConnections[ip] - 1;
        if count == 0 {
          ipConnections := ipConnections - {ip};
        } else {
          ipConnections := ipConnections[ip := count];
        }
      }
      if globalCount > 0 {
        globalCount := globalCount - 1;
      }
    }

    method Sweep()
      modifies this
      ensures Model() == Swept(old(Model()))
    {
      var todo := ipConnections.Keys;
      while todo != {}
        invariant globalCount == old(globalCount)
        invariant todo <= old(ipConnections).Keys && ipConnections.Keys <= old(ipConnections).Keys
        invariant forall ip :: ip in ipConnections ==> ipConnections[ip] == old(ipConnections)[ip]
        invariant forall ip :: ip in todo ==> ip in ipConnections
        invariant forall ip :: ip in old(ipConnections) && ip !in todo ==>
                    (ip in ipConnections <==> old(ipConnections)[ip] > 0)
        decreases todo
      {
        var ip :| ip in todo;
        todo := todo - {ip};
        if ipConnections[ip] <= 0 {
          ipConnections := ipConnections - {ip};
        }
      }
    }
  }

  // ------------------------------------------------------------ the driver's callbacks

  type Conn = nat

  // Where a connection stands between its first and its last step
  datatype Stage = Arriving | Allowed | Leaving

  datatype State = State(
    tracker: Tracker,
    address: map<Conn, string>,   // every connection seen so far; IDs are unique
    holders: map<Conn, Stage>)    // the connections that hold a slot

  datatype Event =
    | Connect(conn: Conn, ip: string)  // ClientConnected asks the tracker
    | Record(conn: Conn)               // and enters the connection in allowedConnections
    | Disconnect(conn: Conn)           // ClientDisconnected takes it out of allowedConnections
    | Free(conn: Conn)                 // and releases its slot
    | Janitor

  function Init(): State {
    State(Tracker(map[], 0), map[], map[])
  }

  function Apply(l: Limits, s: State, e: Event): State {
    match e
    case Connect(conn, ip) =>
      if conn in s.address then s
      else if Admits(l, s.tracker, ip) then
        State(Acquire(s.tracker, ip), s.address[conn := ip], s.holders[conn := Arriving])
      else s.(address := s.address[conn := ip])
    case Record(conn) =>
      if conn in s.holders && s.holders[conn] == Arriving then s.(holders := s.holders[conn := Allowed]) else s
    case Disconnect(conn) =>
      // A rejected connection is not in allowedConnections and releases nothing.
      if conn in s.holders && s.holders[conn] == Allowed then s.(holders := s.holders[conn := Leaving]) else s
    case Free(conn) =>
      if conn in s.holders && s.holders[conn] == Leaving && conn in s.address then
        State(Release(s.tracker, s.address[conn]), s.address, s.holders - {conn})
      else s
    case Janitor => s.(tracker := Swept(s.tracker))
  }

  function Run(l: Limits, es: seq<Event>): State {
    if es == [] then Init() else Apply(l, Run(l, es[..|es| - 1]), es[|es| - 1])
  }

  // The connections from one address that hold a slot
  function HeldBy(s: State, ip: string): set<Conn> {
    set conn | conn in s.holders && conn in s.address && s.address[conn] == ip
  }

  predicate CountOk(l: Limits, s: State, ip: string) {
    && (ip in s.tracker.counts ==> s.tracker.counts[ip] >= 1)
    && Count(s.tracker, ip) == |HeldBy(s, ip)|
    && (l.perIP > 0 ==> Count(s.tracker, ip) <= l.perIP)
  }

  ghost predicate Inv(l: Limits, s: State) {
    && s.holders.Keys <= s.address.Keys
    && s.tracker.total == |s.holders| == Sum(s.tracker.counts)
    && (l.total > 0 ==> s.tracker.total <= l.total)
    && forall ip :: CountOk(l, s, ip)
  }

  lemma HeldByJoin(s: State, conn: Conn, ip: string, a: string)
    requires conn !in s.address && s.holders.Keys <= s.address.Keys
    ensures var t := s.(address := s.address[conn := ip], holders := s.holders[conn := Arriving]);
            |HeldBy(t, a)| == |HeldBy(s, a)| + if a == ip then 1 else 0
  {
    var t := s.(address := s.address[conn := ip], holders := s.holders[conn := Arriving]);
    if a == ip {
      assert HeldBy(t, a) == HeldBy(s, a) + {conn};
    } else {
      assert HeldBy(t, a) == HeldBy(s, a);
    }
  }

  lemma HeldByLeave(s: State, conn: Conn, a: string)
    requires conn in s.holders && conn in s.address
    ensures var t := s.(holders := s.holders - {conn});
            |HeldBy(t, a)| == |HeldBy(s, a)| - if a == s.address[conn] then 1 else 0
  {
    var t := s.(holders := s.holders - {conn});
    if a == s.address[conn] {
      assert HeldBy(s, a) == HeldBy(t, a) + {conn};
    } else {
      assert HeldBy(t, a) == HeldBy(s, a);
    }
  }

  lemma ConnectCounts(l: Limits, s: State, conn: Conn, ip: string, a: string)
    requires conn !in s.address && s.holders.Keys <= s.address.Keys
    requires CountOk(l, s, a) && Admits(l, s.tracker, ip)
    ensures CountOk(l, State(Acquire(s.tracker, ip), s.address[conn := ip], s.holders[conn := Arriving]), a)
  {
    var t := s.(address := s.address[conn := ip], holders := s.holders[conn := Arriving]);
    HeldByJoin(s, conn, ip, a);
    assert HeldBy(t.(tracker := Acquire(s.tracker, ip)), a) == HeldBy(t, a);
  }

  lemma FreeCounts(l: Limits, s: State, conn: Conn, a: string)
    requires conn in s.holders && conn in s.address
    requires CountOk(l, s, a) && CountOk(l, s, s.address[conn])
    ensures CountOk(l, State(Release(s.tracker, s.address[conn]), s.address, s.holders - {conn}), a)
  {
    var t := s.(holders := s.holders - {conn});
    HeldByLeave(s, conn, a);
    assert HeldBy(t.(tracker := Release(s.tracker, s.address[conn])), a) == HeldBy(t, a);
  }

  lemma HoldersSize(m: map<Conn, Stage>, conn: Conn, stage: Stage)
    ensures |m[conn := stage]| == |m| + if conn in m then 0 else 1
    ensures conn in m ==> |m - {conn}| == |m| - 1
  {
    assert |m| == |m.Keys|;
    assert m[conn := stage].Keys == m.Keys + {conn} && |m[conn := stage]| == |m[conn := stage].Keys|;
    assert (m - {conn}).Keys == m.Keys - {conn} && |m - {conn}| == |(m - {conn}).Keys|;
  }

  lemma ConnectKeeps(l: Limits, s: State, conn: Conn, ip: string)
    requires Inv(l, s) && conn !in s.address && Admits(l, s.tracker, ip)
    ensures Inv(l, Apply(l, s, Connect(conn, ip)))
  {
    SumUpdate(s.tracker.counts, ip, Count(s.tracker, ip) + 1);
    HoldersSize(s.holders, conn, Arriving);
    forall a ensures CountOk(l, Apply(l, s, Connect(conn, ip)), a) {
      ConnectCounts(l, s, conn, ip, a);
    }
  }

  // A slot that is released was counted: neither decrement is ever skipped.
  lemma FreeIsCounted(l: Limits, s: State, conn: Conn)
    requires Inv(l, s) && conn in s.holders
    ensures s.tracker.total > 0 && Count(s.tracker, s.address[conn]) > 0
  {
    var ip := s.address[conn];
    assert CountOk(l, s, ip) && conn in HeldBy(s, ip);
    HoldersSize(s.holders, conn, Leaving);
  }

  lemma FreeKeeps(l: Limits, s: State, conn: Conn)
    requires Inv(l, s) && conn in s.holders && s.holders[conn] == Leaving
    ensures Inv(l, Apply(l, s, Free(conn)))
  {
    var counts, ip := s.tracker.counts, s.address[conn];
    FreeIsCounted(l, s, conn);
    SumRemove(counts, ip);
    SumUpdate(counts, ip, counts[ip] - 1);
    HoldersSize(s.holders, conn, Leaving);
    assert CountOk(l, s, ip);
    forall a ensures CountOk(l, Apply(l, s, Free(conn)), a) {
      FreeCounts(l, s, conn, a);
    }
  }

  // Since no zero count is ever stored, the tracker's sweep changes nothing.
  lemma SweepChangesNothing(l: Limits, s: State)
    requires Inv(l, s)
    ensures Swept(s.tracker) == s.tracker
  {
    forall ip | ip in s.tracker.counts ensures s.tracker.counts[ip] > 0 { assert CountOk(l, s, ip); }
  }

  lemma StageKeeps(l: Limits, s: State, conn: Conn, stage: Stage)
    requires Inv(l, s) && conn in s.holders
    ensures Inv(l, s.(holders := s.holders[conn := stage]))
  {
    var t := s.(holders := s.holders[conn := stage]);
    assert t.holders.Keys == s.holders.Keys;
    assert |t.holders| == |t.holders.Keys| && |s.holders| == |s.holders.Keys|;
    forall a ensures CountOk(l, t, a) {
      assert CountOk(l, s, a);
      assert HeldBy(t, a) == HeldBy(s, a);
    }
  }

  lemma ApplyKeeps(l: Limits, s: State, e: Event)
    requires Inv(l, s)
    ensures Inv(l, Apply(l, s, e))
  {
    match e
    case Connect(conn, ip) =>
      if conn !in s.address {
        if Admits(l, s.tracker, ip) {
          ConnectKeeps(l, s, conn, ip);
        } else {
          var t := Apply(l, s, e);
          forall a ensures CountOk(l, t, a) {
            assert CountOk(l, s, a);
            assert HeldBy(t, a) == HeldBy(s, a);
          }
        }
      }
    case Record(conn) =>
      if conn in s.holders { StageKeeps(l, s, conn, Allowed); }
    case Disconnect(conn) =>
      if conn in s.holders { StageKeeps(l, s, conn, Leaving); }
    case Free(conn) =>
      if conn in s.holders && s.holders[conn] == Leaving { FreeKeeps(l, s, conn); }
    case Janitor => SweepChangesNothing(l, s);
  }

  // In every reachable state of every interleaving of connects, rejections, disconnects and
  // sweeps: the global count is the sum of the per-address counts and the number of
  // connections holding a slot, each address's count is the number of its connections,
  // both limits hold and no zero count is stored.
  lemma {:induction false} RunSafe(l: Limits, es: seq<Event>)
    ensures Inv(l, Run(l, es))
    ensures Swept(Run(l, es).tracker) == Run(l, es).tracker
  {
    if es == [] {
      var s := Init();
      forall a ensures CountOk(l, s, a) { assert HeldBy(s, a) == {}; }
    } else {
      RunSafe(l, es[..|es| - 1]);
      ApplyKeeps(l, Run(l, es[..|es| - 1]), es[|es| - 1]);
    }
    SweepChangesNothing(l, Run(l, es));
  }

  // In every reachable state a new connection is admitted exactly while fewer connections than
  // the limits allow hold a slot, in all and from its address.
  lemma {:induction false} AdmittedIff(l: Limits, es: seq<Event>, conn: Conn, ip: string)
    requires conn !in Run(l, es).address
    ensures var s, t := Run(l, es), Run(l, es + [Connect(conn, ip)]);
            && t.holders.Keys == s.holders.Keys + (if conn in t.holders then {conn} else {})
            && (conn in t.holders <==>
                  && (l.total <= 0 || |s.holders| < l.total)
                  && (l.perIP <= 0 || |HeldBy(s, ip)| < l.perIP))
  {
    hide Inv, Apply;
    RunSafe(l, es);
    assert (es + [Connect(conn, ip)])[..|es|] == es;
    ConnectAdmits(l, Run(l, es), conn, ip);
  }

  lemma ConnectAdmits(l: Limits, s: State, conn: Conn, ip: string)
    requires Inv(l, s) && conn !in s.address
    ensures var t := Apply(l, s, Connect(conn, ip));
            && t.holders.Keys == s.holders.Keys + (if conn in t.holders then {conn} else {})
            && (conn in t.holders <==>
                  && (l.total <= 0 || |s.holders| < l.total)
                  && (l.perIP <= 0 || |HeldBy(s, ip)| < l.perIP))
  {
    assert CountOk(l, s, ip) && conn !in s.holders;
  }
}
