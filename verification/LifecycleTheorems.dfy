/**
 The boundary of the revocation guarantee: it begins with the first acknowledged
 unpair that covers a session, and not before.  When the store applies an
 unpair but reports it as failed, the service returns before it marks and
 cancels anything, and an open stream request can outlive the unpair.
 */
module LifecycleTheorems {
  import opened Base
  import opened Schema
  import opened SchemaInvariant
  import opened Lifecycle
  import opened LifecycleInvariant
  import opened Witness
  import G = DeviceGate

  lemma {:induction false} PathExtends(x: Life, steps: seq<Step>, y: Life, s: Step)
    requires Path(x, steps, y) && Enabled(y, s)
    ensures Path(x, steps + [s], Take(y, s))
    decreases |steps|
  {
    if steps == [] {
      assert (steps + [s])[1..] == [];
    } else {
      PathExtends(Take(x, steps[0]), steps[1..], y, s);
      assert (steps + [s])[1..] == steps[1..] + [s];
    }
  }

  lemma PathOfOne(x: Life, s: Step)
    requires Enabled(x, s)
    ensures Path(x, [s], Take(x, s))
  {
    assert [s][1..] == [];
  }

  lemma {:induction false} PathsJoin(x: Life, a: seq<Step>, y: Life, b: seq<Step>, z: Life)
    requires Path(x, a, y) && Path(y, b, z)
    ensures Path(x, a + b, z)
    decreases |a|
  {
    if a == [] {
      assert a + b == b;
    } else {
      PathsJoin(Take(x, a[0]), a[1..], y, b, z);
      assert (a + b)[1..] == a[1..] + b;
    }
  }

  ghost predicate Reachable(x: Life) {
    exists steps :: Path(NEW, steps, x)
  }

  lemma ReachableStep(x: Life, s: Step)
    requires Reachable(x) && Enabled(x, s)
    ensures Reachable(Take(x, s))
  {
    var steps :| Path(NEW, steps, x);
    PathExtends(NEW, steps, x, s);
  }

  lemma ReachablePath(x: Life, steps: seq<Step>, y: Life)
    requires Reachable(x) && Path(x, steps, y)
    ensures Reachable(y)
  {
    var before :| Path(NEW, before, x);
    PathsJoin(NEW, before, x, steps, y);
  }

  // ---------------------------------------------------------------------------
  // What an acknowledged unpair guarantees

  lemma ToldStays(x: Life, s: Step, sid: SessionId)
    requires Enabled(x, s) && sid in x.told
    ensures sid in Take(x, s).told && Take(x, s).told[sid] == x.told[sid]
  {
    if s.Commit? {
      CommitStamps(x, s.t, s.now, s.io);
    } else {
      OnlyCommitStamps(x, s);
    }
  }

  lemma {:induction false} ToldStaysAlong(x: Life, steps: seq<Step>, y: Life, sid: SessionId)
    requires Path(x, steps, y) && sid in x.told
    ensures sid in y.told && y.told[sid] == x.told[sid]
    decreases |steps|
  {
    if steps != [] {
      ToldStays(x, steps[0], sid);
      ToldStaysAlong(Take(x, steps[0]), steps[1..], y, sid);
    }
  }

  /**
   Whatever came before, an acknowledged unpair holds from its commit on: no turn of
   a session it covers has a stream on a connection published later, in any run.
   */
  lemma NoStreamAfterAcknowledgedUnpair(before: seq<Step>, x: Life, t: ClientId, now: Time, after: seq<Step>, y: Life,
                                        turn: TurnId, c: ConnId)
    requires Path(NEW, before, x) && Holds(x, t) && x.work[t].Committing?
    requires Schema.Unpair(x.db, x.work[t].user, DeviceOf(x, t), now).reply.Done?
    requires Path(Take(x, Commit(t, now, Ok)), after, y) && (turn, c) in y.streams && turn in y.turns
    requires y.turns[turn].session in CoveredSessions(x.db.sessions, x.work[t].user, DeviceOf(x, t))
    ensures c in y.publishedAt && y.publishedAt[c] <= x.clock
  {
    var s, commit := y.turns[turn].session, Commit(t, now, Ok);
    HistoryHolds(NEW, before, x);
    AcknowledgedIsTold(x, t, now, s);
    ToldStaysAlong(Take(x, commit), after, y, s);
    PathExtends(NEW, before, x, commit);
    PathsJoin(NEW, before + [commit], Take(x, commit), after, y);
    NoStreamOnLaterConnection(before + [commit] + after, y, turn, c);
  }

  // ---------------------------------------------------------------------------
  // The gate hands over

  lemma UnlockFrees(g: G.Gate, t: ClientId, u: ClientId, spare: G.EntryId)
    requires G.Inv(g) && G.At(g, t, G.Holding) && u !in g.clients && spare !in g.heap
    ensures G.Enabled(g, G.Unlock(t))
    ensures var g', e, d := G.Take(g, G.Unlock(t)), g.clients[t].entry, g.clients[t].device;
            d in g'.entries && g'.entries[d] == e && e in g'.heap && g'.heap[e].token && u !in g'.clients && spare !in g'.heap
  {
    G.GivingBackNeverBlocks(g, t);
    assert G.EntryFits(g, g.clients[t].entry);
    assert t in G.Users(g, g.clients[t].entry);
  }

  lemma FreedIsTaken(g: G.Gate, u: ClientId, d: DeviceId, spare: G.EntryId)
    requires d in g.entries && g.entries[d] in g.heap && g.heap[g.entries[d]].token && u !in g.clients && spare !in g.heap
    ensures G.Enabled(g, G.Enter(u, d, spare))
    ensures var g1 := G.Take(g, G.Enter(u, d, spare));
            && G.Enabled(g1, G.Acquire(u))
            && var g2 := G.Take(g1, G.Acquire(u));
            && G.Enabled(g2, G.Grant(u))
            && var g3 := G.Take(g2, G.Grant(u)); G.At(g3, u, G.Holding) && g3.clients[u].device == d
  {
  }

  /** Everything but the gate, its clients and the clock is as before. */
  predicate OnlyGate(x: Life, y: Life) {
    y == x.(gate := y.gate, work := y.work, clock := y.clock) && x.clock <= y.clock
  }

  predicate Free(x: Life, d: DeviceId) {
    d in x.gate.entries && x.gate.entries[d] in x.gate.heap && x.gate.heap[x.gate.entries[d]].token
  }

  predicate Newcomer(x: Life, u: ClientId, c: ConnId, spare: G.EntryId) {
    u !in x.work && u !in x.gate.clients && spare !in x.gate.heap && c !in x.conns
  }

  lemma FreeGateAdmitsPublisher(x: Life, d: DeviceId, u: ClientId, c: ConnId, spare: G.EntryId)
    returns (steps: seq<Step>, y: Life)
    requires Free(x, d) && Newcomer(x, u, c, spare)
    ensures Path(x, steps, y) && OnlyGate(x, y) && Holds(y, u) && y.work[u] == Publishing(c) && DeviceOf(y, u) == d
  {
    FreedIsTaken(x.gate, u, d, spare);
    var s1, s2, s3 := Begin(u, d, Publishing(c), spare), GateStep(G.Acquire(u)), GateStep(G.Grant(u));
    var x1 := Take(x, s1);
    var x2 := Take(x1, s2);
    y := Take(x2, s3);
    PathOfOne(x, s1);
    PathExtends(x, [s1], x1, s2);
    PathExtends(x, [s1] + [s2], x2, s3);
    steps := [s1] + [s2] + [s3];
  }

  lemma PublisherTakesOver(x: Life, t: ClientId, u: ClientId, c: ConnId, spare: G.EntryId)
    returns (steps: seq<Step>, y: Life)
    requires G.Inv(x.gate) && Holds(x, t) && x.work[t].Leaving? && Newcomer(x, u, c, spare)
    ensures Path(x, steps, y) && OnlyGate(x, y) && Holds(y, u) && y.work[u] == Publishing(c) && DeviceOf(y, u) == DeviceOf(x, t)
  {
    UnlockFrees(x.gate, t, u, spare);
    var first := GateStep(G.Unlock(t));
    var x1 := Take(x, first);
    PathOfOne(x, first);
    var rest;
    rest, y := FreeGateAdmitsPublisher(x1, DeviceOf(x, t), u, c, spare);
    PathsJoin(x, [first], x1, rest, y);
    steps := [first] + rest;
  }

  predicate Waits(x: Life, o: OpenId, turn: TurnId, d: DeviceId) {
    && o in x.opens && x.opens[o] == Open(turn, Entered) && turn in x.turns && !x.turns[turn].canceled
    && x.turns[turn].session in x.homes && x.homes[x.turns[turn].session] == d
  }

  predicate Offers(x: Life, d: DeviceId, c: ConnId) {
    d in x.connections && x.connections[d] == c && c in x.conns && !x.conns[c].closed
  }

  /** A waiting request can get the connection the manager offers. */
  lemma WaitingRequestSucceeds(x: Life, o: OpenId, turn: TurnId, d: DeviceId, c: ConnId) returns (steps: seq<Step>, y: Life)
    requires Waits(x, o, turn, d) && Offers(x, d, c)
    ensures Path(x, steps, y) && y == x.(opens := x.opens - {o}, streams := x.streams + {(turn, c)}, clock := y.clock)
  {
    assert PickableConn(x, o) == Some(c);
    var x1 := Tick(x, DoOpen(x, o, Open(turn, Picked(c))));
    assert Take(x, Pick(o)) == x1;
    var x2 := Tick(x1, DoOpen(x1, o, Open(turn, Ready(c))));
    assert Take(x1, SetUp(o)) == x2;
    y := Take(x2, Finish(o));
    PathOfOne(x, Pick(o));
    PathExtends(x, [Pick(o)], x1, SetUp(o));
    PathExtends(x, [Pick(o)] + [SetUp(o)], x2, Finish(o));
    steps := [Pick(o)] + [SetUp(o)] + [Finish(o)];
    assert x2.opens - {o} == x.opens - {o};
  }

  /** Publication replaces whatever connection the device had. */
  lemma PublishedIsOffered(x: Life, u: ClientId)
    requires Holds(x, u) && x.work[u].Publishing? && x.work[u].conn !in x.conns && !x.closing
    ensures var c := x.work[u].conn;
            Offers(Tick(x, DoPublish(x, u)), DeviceOf(x, u), c)
  {
  }

  // ---------------------------------------------------------------------------
  // What an unacknowledged unpair allows

  /** The unpair of `t` covers session `s`, and no acknowledged unpair has before. */
  predicate Revokes(x: Life, t: ClientId, now: Time, s: SessionId) {
    && Holds(x, t) && x.work[t].Committing? && s !in x.told
    && Schema.Unpair(x.db, x.work[t].user, DeviceOf(x, t), now).reply.Done?
    && s in CoveredSessions(x.db.sessions, x.work[t].user, DeviceOf(x, t))
  }

  lemma LostCommit(x: Life, t: ClientId, now: Time, s: SessionId)
    requires Revokes(x, t, now, s) && (s in x.revokedAt ==> x.revokedAt[s] <= x.clock)
    ensures var y := Tick(x, DoCommit(x, t, now, LostAfter));
            && s in y.revokedAt && y.revokedAt[s] <= x.clock && y.told == x.told && y.clock == x.clock + 1
            && y.work == x.work[t := Leaving] && y.gate == x.gate && SameOpens(x, y) && SameTurns(x, y) && SameTunnel(x, y)
            && y.homes == x.homes && y.closing == x.closing
  {
  }

  /** After the lost commit the device reconnects. */
  lemma DeviceReconnects(x: Life, t: ClientId, u: ClientId, c: ConnId, spare: G.EntryId)
    returns (steps: seq<Step>, y: Life)
    requires G.Inv(x.gate) && Holds(x, t) && x.work[t].Leaving? && Newcomer(x, u, c, spare) && !x.closing
    ensures Path(x, steps, y) && Offers(y, DeviceOf(x, t), c) && c in y.publishedAt && y.publishedAt[c] >= x.clock
    ensures y.turns == x.turns && y.homes == x.homes && y.opens == x.opens && y.told == x.told && y.revokedAt == x.revokedAt
  {
    var over, x1 := PublisherTakesOver(x, t, u, c, spare);
    PublishedIsOffered(x1, u);
    y := Tick(x1, DoPublish(x1, u));
    PathExtends(x, over, x1, Publish(u));
    steps := over + [Publish(u)];
  }

  /** The request that waited gets the new connection. */
  lemma RequestOutlives(x: Life, t: ClientId, o: OpenId, turn: TurnId, u: ClientId, c: ConnId, spare: G.EntryId)
    returns (steps: seq<Step>, y: Life)
    requires G.Inv(x.gate) && Holds(x, t) && x.work[t].Leaving? && Waits(x, o, turn, DeviceOf(x, t))
    requires Newcomer(x, u, c, spare) && !x.closing
    ensures Path(x, steps, y) && (turn, c) in y.streams && c in y.publishedAt && y.publishedAt[c] >= x.clock
    ensures y.turns == x.turns && y.told == x.told && y.revokedAt == x.revokedAt
  {
    var over, x1 := DeviceReconnects(x, t, u, c, spare);
    var last;
    last, y := WaitingRequestSucceeds(x1, o, turn, DeviceOf(x, t), c);
    PathsJoin(x, over, x1, last, y);
    steps := over + last;
  }

  lemma LostCommitAllowsIt(x: Life, t: ClientId, now: Time, o: OpenId, turn: TurnId,
                           u: ClientId, c: ConnId, spare: G.EntryId)
    returns (steps: seq<Step>, y: Life)
    requires G.Inv(x.gate) && Holds(x, t) && Waits(x, o, turn, DeviceOf(x, t))
    requires Revokes(x, t, now, x.turns[turn].session)
    requires x.turns[turn].session in x.revokedAt ==> x.revokedAt[x.turns[turn].session] <= x.clock
    requires Newcomer(x, u, c, spare) && !x.closing
    ensures steps != [] && steps[0] == Commit(t, now, LostAfter) && Path(x, steps, y)
    ensures (turn, c) in y.streams && turn in y.turns && c in y.publishedAt
    ensures var s := y.turns[turn].session;
            s !in y.told && s in y.revokedAt && y.publishedAt[c] > y.revokedAt[s]
  {
    var first := Commit(t, now, LostAfter);
    LostCommit(x, t, now, x.turns[turn].session);
    var x1 := Tick(x, DoCommit(x, t, now, LostAfter));
    PathOfOne(x, first);
    var rest;
    rest, y := RequestOutlives(x1, t, o, turn, u, c, spare);
    PathsJoin(x, [first], x1, rest, y);
    steps := [first] + rest;
  }

  lemma GateIsSound(x: Life, s: SessionId)
    requires Reachable(x)
    ensures G.Inv(x.gate) && (s in x.revokedAt ==> x.revokedAt[s] <= x.clock)
  {
    var steps :| Path(NEW, steps, x);
    NewHolds();
    PathKeepsInv(NEW, steps, x);
    HistoryHolds(NEW, steps, x);
  }

  /**
   The guarantee ends exactly where the acknowledgement does: whenever an unpair
   that covers a waiting request's session is applied but reported as failed, the
   device can reconnect and the request succeeds on the new connection.
   */
  lemma UnacknowledgedUnpairAllowsIt(x: Life, t: ClientId, now: Time, o: OpenId, turn: TurnId,
                                     u: ClientId, c: ConnId, spare: G.EntryId)
    returns (steps: seq<Step>, y: Life)
    requires Reachable(x) && Holds(x, t) && Waits(x, o, turn, DeviceOf(x, t))
    requires Revokes(x, t, now, x.turns[turn].session) && Newcomer(x, u, c, spare) && !x.closing
    ensures steps != [] && steps[0] == Commit(t, now, LostAfter) && Path(x, steps, y) && Reachable(y)
    ensures (turn, c) in y.streams && turn in y.turns && c in y.publishedAt
    ensures var s := y.turns[turn].session;
            s !in y.told && s in y.revokedAt && y.publishedAt[c] > y.revokedAt[s]
  {
    GateIsSound(x, x.turns[turn].session);
    steps, y := LostCommitAllowsIt(x, t, now, o, turn, u, c, spare);
    ReachablePath(x, steps, y);
  }

  // ---------------------------------------------------------------------------
  // Such a state does occur

  /** One device, one session, one running turn with one stream request, and the given gate and unpair. */
  function Sample(gate: G.Gate, work: map<ClientId, Work>, turns: map<TurnId, Turn>, opens: map<OpenId, Open>, clock: nat): Life {
    NEW.(db := Opened(Session(2, 1, PerCommand, Idle, None), map[]), homes := map[3 := 1], gate := gate, work := work,
         turns := turns, running := if 4 in turns then map[3 := 4] else map[], opens := opens, clock := clock)
  }

  lemma ClaimIsReachable()
    ensures Reachable(NEW.(db := CLAIMED, clock := 3))
  {
    assert Path(NEW, [], NEW);
    Pairs();
    Claims();
    ReachableStep(NEW, External(REGISTER));
    var x1 := NEW.(db := REGISTERED, clock := 1);
    assert Take(NEW, External(REGISTER)) == x1;
    ReachableStep(x1, External(OFFER));
    var x2 := NEW.(db := OFFERED, clock := 2);
    assert Take(x1, External(OFFER)) == x2;
    ReachableStep(x2, External(CLAIM));
    assert Take(x2, External(CLAIM)) == NEW.(db := CLAIMED, clock := 3);
  }

  lemma SessionIsReachable()
    ensures Reachable(Sample(G.NEW, map[], map[], map[], 4))
  {
    ClaimIsReachable();
    Opens();
    var x3 := NEW.(db := CLAIMED, clock := 3);
    ReachableStep(x3, External(OPEN));
    assert Take(x3, External(OPEN)) == Sample(G.NEW, map[], map[], map[], 4);
  }

  lemma RequestIsReachable()
    ensures Reachable(Sample(G.NEW, map[], map[4 := Turn(3, false, false)], map[5 := Open(4, Entered)], 6))
  {
    SessionIsReachable();
    var turns := map[4 := Turn(3, false, false)];
    var x2 := Sample(G.NEW, map[], map[], map[], 4);
    ReachableStep(x2, Reserve(4, 3));
    var x3 := Sample(G.NEW, map[], turns, map[], 5);
    assert Take(x2, Reserve(4, 3)) == x3;
    ReachableStep(x3, Enter(5, 4));
    assert Take(x3, Enter(5, 4)) == Sample(G.NEW, map[], turns, map[5 := Open(4, Entered)], 6);
  }

  function Locked(place: G.Place): G.Gate {
    G.Gate(map[1 := 8], map[8 := G.Entry(1, place == G.Waiting, 1)], map[6 := G.Client(1, 8, place)])
  }

  lemma LockedMoves()
    ensures var g := Locked(G.Waiting);
            G.Enabled(g, G.Acquire(6)) && G.Take(g, G.Acquire(6)) == Locked(G.Checking)
    ensures var g := Locked(G.Checking);
            G.Enabled(g, G.Grant(6)) && G.Take(g, G.Grant(6)) == Locked(G.Holding)
  {
  }

  lemma UnpairWaits()
    ensures Reachable(Sample(Locked(G.Waiting), map[6 := Committing(2)], map[4 := Turn(3, false, false)],
                             map[5 := Open(4, Entered)], 7))
  {
    RequestIsReachable();
    var turns, opens := map[4 := Turn(3, false, false)], map[5 := Open(4, Entered)];
    var x4 := Sample(G.NEW, map[], turns, opens, 6);
    ReachableStep(x4, Begin(6, 1, Committing(2), 8));
    assert Take(x4, Begin(6, 1, Committing(2), 8)) == Sample(Locked(G.Waiting), map[6 := Committing(2)], turns, opens, 7);
  }

  lemma UnpairChecks()
    ensures Reachable(Sample(Locked(G.Checking), map[6 := Committing(2)], map[4 := Turn(3, false, false)],
                             map[5 := Open(4, Entered)], 8))
  {
    UnpairWaits();
    LockedMoves();
    var turns, opens, work := map[4 := Turn(3, false, false)], map[5 := Open(4, Entered)], map[6 := Committing(2)];
    var x5 := Sample(Locked(G.Waiting), work, turns, opens, 7);
    ReachableStep(x5, GateStep(G.Acquire(6)));
    assert Take(x5, GateStep(G.Acquire(6))) == Sample(Locked(G.Checking), work, turns, opens, 8);
  }

  lemma UnpairHolds()
    ensures Reachable(Sample(Locked(G.Holding), map[6 := Committing(2)], map[4 := Turn(3, false, false)],
                             map[5 := Open(4, Entered)], 9))
  {
    UnpairChecks();
    LockedMoves();
    var turns, opens, work := map[4 := Turn(3, false, false)], map[5 := Open(4, Entered)], map[6 := Committing(2)];
    var x6 := Sample(Locked(G.Checking), work, turns, opens, 8);
    ReachableStep(x6, GateStep(G.Grant(6)));
    assert Take(x6, GateStep(G.Grant(6))) == Sample(Locked(G.Holding), work, turns, opens, 9);
  }

  /** A reachable state has a stream on a connection published after the stream's session was revoked. */
  lemma LaterStreamIsReachable()
    ensures exists x: Life, i, c ::
              && Reachable(x) && (i, c) in x.streams && i in x.turns && c in x.publishedAt
              && x.turns[i].session in x.revokedAt && x.publishedAt[c] > x.revokedAt[x.turns[i].session]
  {
    UnpairHolds();
    var x := Sample(Locked(G.Holding), map[6 := Committing(2)], map[4 := Turn(3, false, false)], map[5 := Open(4, Entered)], 9);
    assert 3 in CoveredSessions(x.db.sessions, 2, 1);
    var steps, y := UnacknowledgedUnpairAllowsIt(x, 6, 0, 5, 4, 9, 10, 11);
    assert (4, 10) in y.streams;
  }
}
