/**
 Why a revoked turn never reaches a connection published after its unpair: the
 turn is canceled before the gate is released, publication needs the gate, and
 the stream looks at the turn's context last.
 */
module LifecycleInvariant {
  import opened Base
  import opened Schema
  import opened SchemaInvariant
  import opened Lifecycle
  import G = DeviceGate

  /** The unpair that revoked its sessions has not yet canceled all their turns. */
  predicate InProgress(w: Work) {
    w.Marking? || w.Canceling?
  }

  predicate WorkFits(x: Life, t: ClientId)
    requires t in x.work
  {
    InProgress(x.work[t]) ==>
      && Holds(x, t)
      && forall s <- x.work[t].sessions :: s in x.homes && x.homes[s] == x.gate.clients[t].device
  }

  ghost predicate GateFits(x: Life) {
    && G.Inv(x.gate)
    && (forall t <- x.work :: WorkFits(x, t))
  }

  ghost predicate NamesFit(x: Life) {
    && (forall s <- x.db.sessions :: s in x.homes && x.homes[s] == x.db.sessions[s].device)
    && (forall s <- x.told :: s in x.homes)
    && (forall i <- x.turns :: x.turns[i].session in x.homes)
  }

  /** The registry holds exactly the turns that are not released. */
  ghost predicate RegistryFits(x: Life) {
    && (forall i <- x.turns :: !x.turns[i].released ==> x.turns[i].session in x.running && x.running[x.turns[i].session] == i)
    && (forall s <- x.running :: x.running[s] in x.turns && x.turns[x.running[s]].session == s
                                 && !x.turns[x.running[s]].released)
  }

  ghost predicate StampsFit(x: Life) {
    && (forall c <- x.publishedAt :: c in x.conns && x.publishedAt[c] < x.clock)
    && (forall d <- x.connections :: x.connections[d] in x.publishedAt && x.connections[d] in x.conns
                                     && x.conns[x.connections[d]].device == d)
  }

  /** Every turn of the session is canceled or over, and no new one can be reserved. */
  ghost predicate Settled(x: Life, s: SessionId) {
    s in x.tombs && forall i <- x.turns :: x.turns[i].session == s ==> x.turns[i].canceled || x.turns[i].released
  }

  ghost predicate SettledBut(x: Life, s: SessionId, todo: set<TurnId>) {
    && s in x.tombs
    && forall i <- x.turns :: x.turns[i].session == s ==> x.turns[i].canceled || x.turns[i].released || i in todo
  }

  /** Client `t` is on its way to settling session `s`. */
  ghost predicate Settling(x: Life, s: SessionId, t: ClientId) {
    && t in x.work && InProgress(x.work[t]) && s in x.work[t].sessions
    && (x.work[t].Canceling? ==> SettledBut(x, s, x.work[t].todo))
  }

  ghost predicate Underway(x: Life, s: SessionId) {
    exists t :: Settling(x, s, t)
  }

  ghost predicate ToldFits(x: Life) {
    forall s <- x.told :: Settled(x, s) || Underway(x, s)
  }

  predicate Later(x: Life, s: SessionId, c: ConnId) {
    && s in x.told && s in x.homes && c in x.publishedAt && c in x.conns
    && x.conns[c].device == x.homes[s] && x.publishedAt[c] > x.told[s]
  }

  /** A connection published after the unpair exists only once the session is settled. */
  ghost predicate LaterFits(x: Life) {
    forall s, c :: Later(x, s, c) ==> Settled(x, s)
  }

  predicate OpenFits(x: Life, o: OpenId)
    requires o in x.opens
  {
    var v := x.opens[o];
    && v.turn in x.turns && !x.turns[v.turn].released
    && (v.pc.Picked? || v.pc.Ready? ==>
          && v.pc.conn in x.publishedAt && v.pc.conn in x.conns
          && x.turns[v.turn].session in x.homes && x.conns[v.pc.conn].device == x.homes[x.turns[v.turn].session])
  }

  ghost predicate OpensFit(x: Life) {
    forall o <- x.opens :: OpenFits(x, o)
  }

  predicate StreamFits(x: Life, i: TurnId, c: ConnId) {
    && i in x.turns && c in x.publishedAt && c in x.conns
    && x.turns[i].session in x.homes && x.conns[c].device == x.homes[x.turns[i].session]
    && !Later(x, x.turns[i].session, c)
  }

  ghost predicate StreamsFit(x: Life) {
    forall i, c :: (i, c) in x.streams ==> StreamFits(x, i, c)
  }

  ghost predicate Inv(x: Life) {
    && GateFits(x) && NamesFit(x) && RegistryFits(x) && StampsFit(x) && ToldFits(x) && LaterFits(x)
    && OpensFit(x) && StreamsFit(x)
  }

  lemma NewHolds()
    ensures Inv(NEW)
  {
  }

  // ---------------------------------------------------------------------------
  // Frames: which parts a step can disturb

  predicate SameTurns(x: Life, y: Life) {
    y.turns == x.turns && y.running == x.running && y.tombs == x.tombs
  }

  predicate SameTunnel(x: Life, y: Life) {
    y.connections == x.connections && y.conns == x.conns && y.publishedAt == x.publishedAt
  }

  predicate SameUnpairs(x: Life, y: Life) {
    y.told == x.told
  }

  predicate SameOpens(x: Life, y: Life) {
    y.opens == x.opens && y.streams == x.streams
  }

  /** The histories of turns, tunnels and unpairs are untouched, and homes only grow. */
  predicate SameHistory(x: Life, y: Life) {
    && SameTurns(x, y) && SameTunnel(x, y) && SameUnpairs(x, y)
    && (forall s <- x.homes :: s in y.homes && y.homes[s] == x.homes[s]) && x.clock <= y.clock
  }

  lemma LaterSame(x: Life, y: Life, s: SessionId, c: ConnId)
    requires SameHistory(x, y) && NamesFit(x)
    ensures Later(y, s, c) == Later(x, s, c)
  {
  }

  lemma SameHistoryKeeps(x: Life, y: Life)
    requires Inv(x) && SameHistory(x, y)
    ensures RegistryFits(y) && StampsFit(y) && LaterFits(y)
    ensures y.opens == x.opens ==> OpensFit(y)
    ensures y.streams == x.streams ==> StreamsFit(y)
    ensures y.work == x.work ==> ToldFits(y)
  {
    forall s, c | Later(y, s, c) ensures Settled(y, s) {
      LaterSame(x, y, s, c);
      assert Settled(x, s);
    }
    if y.opens == x.opens {
      forall o | o in y.opens ensures OpenFits(y, o) {
        assert OpenFits(x, o);
      }
    }
    if y.streams == x.streams {
      forall i, c | (i, c) in y.streams ensures StreamFits(y, i, c) {
        assert StreamFits(x, i, c);
        LaterSame(x, y, x.turns[i].session, c);
      }
    }
    if y.work == x.work {
      SameWorkKeepsTold(x, y);
    }
  }

  lemma SameWorkKeepsTold(x: Life, y: Life)
    requires ToldFits(x) && SameTurns(x, y) && SameUnpairs(x, y) && y.work == x.work
    ensures ToldFits(y)
  {
    forall s | s in y.told ensures Settled(y, s) || Underway(y, s) {
      if !Settled(x, s) {
        var t :| Settling(x, s, t);
        assert Settling(y, s, t);
      }
    }
  }

  // ---------------------------------------------------------------------------
  // Steps

  lemma StatementSessions(t: Tables, st: Statement, s: SessionId)
    requires s in Apply(t, st).tables.sessions
    ensures if s in t.sessions then Apply(t, st).tables.sessions[s].device == t.sessions[s].device
            else st.DoCreateSession? && st.sid == s && Apply(t, st).tables.sessions[s].device == st.device
  {
    StatementEvolves(t, st);
  }

  lemma ExternalKeepsNames(x: Life, st: Statement)
    requires NamesFit(x) && ExternalStatement(x, st)
    ensures NamesFit(Tick(x, DoExternal(x, st)))
  {
    var y := Tick(x, DoExternal(x, st));
    forall s | s in y.db.sessions ensures s in y.homes && y.homes[s] == y.db.sessions[s].device {
      StatementSessions(x.db, st, s);
    }
  }

  lemma ExternalKeepsInv(x: Life, st: Statement)
    requires Inv(x) && ExternalStatement(x, st)
    ensures Inv(Tick(x, DoExternal(x, st)))
  {
    var y := Tick(x, DoExternal(x, st));
    SameHistoryKeeps(x, y);
    ExternalKeepsNames(x, st);
    forall t | t in y.work ensures WorkFits(y, t) {
      assert WorkFits(x, t);
    }
  }

  /** Only the gate and the work of client `t` change, and `t` is not settling anything. */
  ghost predicate OnlyClient(x: Life, y: Life, t: ClientId) {
    && y == x.(gate := y.gate, work := y.work, clock := x.clock + 1)
    && (forall u | u != t :: u in x.work <==> u in y.work)
    && (forall u | u != t && u in x.work :: y.work[u] == x.work[u])
    && (t in x.work ==> !InProgress(x.work[t]))
    && (t in y.work ==> !InProgress(y.work[t]))
    && (forall u | u != t && u in x.gate.clients :: u in y.gate.clients && y.gate.clients[u] == x.gate.clients[u])
    && (forall e <- x.gate.heap :: e in y.gate.heap)
  }

  lemma OnlyClientKeepsInv(x: Life, y: Life, t: ClientId)
    requires Inv(x) && OnlyClient(x, y, t) && G.Inv(y.gate)
    ensures Inv(y)
  {
    SameHistoryKeeps(x, y);
    forall u | u in y.work ensures WorkFits(y, u) {
      if u != t {
        assert WorkFits(x, u);
      }
    }
    forall s | s in y.told ensures Settled(y, s) || Underway(y, s) {
      if !Settled(x, s) {
        var u :| Settling(x, s, u);
        assert Settling(y, s, u);
      }
    }
  }

  lemma BeginIsOnlyClient(x: Life, t: ClientId, device: DeviceId, work: Work, spare: G.EntryId)
    requires t !in x.work && !InProgress(work) && G.Enabled(x.gate, G.Enter(t, device, spare))
    ensures OnlyClient(x, Tick(x, DoBegin(x, t, device, work, spare)), t)
  {
    G.StepMovesOne(x.gate, G.Enter(t, device, spare));
  }

  /** A client in the middle of settling holds the lock and may not unlock, so no gate step of its own is possible. */
  lemma GateStepIsOnlyClient(x: Life, g: G.Step)
    requires Enabled(x, GateStep(g)) && (g.t in x.work ==> WorkFits(x, g.t))
    ensures OnlyClient(x, Tick(x, DoGate(x, g)), g.t)
  {
    G.StepMovesOne(x.gate, g);
  }

  // ---------------------------------------------------------------------------
  // Unpair

  /** What committing does to the histories: new revocations carry the current time, new acknowledgements are marked next. */
  ghost predicate Committed(x: Life, y: Life, t: ClientId) {
    && Holds(x, t) && !InProgress(x.work[t]) && t in y.work
    && y == x.(db := y.db, work := x.work[t := y.work[t]], revokedAt := y.revokedAt, told := y.told, clock := x.clock + 1)
    && (y.work[t].Leaving? || y.work[t].Marking?)
    && (y.work[t].Marking? ==> forall s <- y.work[t].sessions :: s in x.homes && x.homes[s] == DeviceOf(x, t))
    && (forall s <- x.told :: s in y.told && y.told[s] == x.told[s])
    && (forall s <- y.told :: s in x.told || (y.told[s] == x.clock && y.work[t].Marking? && s in y.work[t].sessions))
    && (forall s <- y.db.sessions :: s in x.homes && x.homes[s] == y.db.sessions[s].device)
  }

  lemma UnpairKeepsHomes(t: Tables, homes: map<SessionId, DeviceId>, user: UserId, device: DeviceId, now: Time)
    requires forall s <- t.sessions :: s in homes && homes[s] == t.sessions[s].device
    ensures var t' := Schema.Unpair(t, user, device, now).tables;
            forall s <- t'.sessions :: s in homes && homes[s] == t'.sessions[s].device
    ensures forall s <- CoveredSessions(t.sessions, user, device) :: s in homes && homes[s] == device
  {
  }

  lemma AppliedIsCommitted(x: Life, t: ClientId, now: Time, ok: bool)
    requires NamesFit(x) && Holds(x, t) && x.work[t].Committing?
    ensures Committed(x, Tick(x, DoApply(x, t, now, ok)), t)
  {
    var y := Tick(x, DoApply(x, t, now, ok));
    UnpairKeepsHomes(x.db, x.homes, x.work[t].user, DeviceOf(x, t), now);
    assert y.work == x.work[t := y.work[t]] && y.gate == x.gate;
  }

  lemma LeavingIsCommitted(x: Life, t: ClientId)
    requires NamesFit(x) && Holds(x, t) && x.work[t].Committing?
    ensures Committed(x, Tick(x, Working(x, t, Leaving)), t)
  {
  }

  lemma CommitIsCommitted(x: Life, t: ClientId, now: Time, io: Io)
    requires NamesFit(x) && Holds(x, t) && x.work[t].Committing?
    ensures Committed(x, Tick(x, DoCommit(x, t, now, io)), t)
  {
    if Schema.Unpair(x.db, x.work[t].user, DeviceOf(x, t), now).reply.Done? && !io.LostBefore? {
      AppliedIsCommitted(x, t, now, io.Ok?);
    } else {
      LeavingIsCommitted(x, t);
    }
  }

  lemma CommittedKeepsTold(x: Life, y: Life, t: ClientId)
    requires ToldFits(x) && Committed(x, y, t)
    ensures ToldFits(y)
  {
    forall s | s in y.told ensures Settled(y, s) || Underway(y, s) {
      if s !in x.told {
        assert Settling(y, s, t);
      } else if !Settled(x, s) {
        var u :| Settling(x, s, u);
        assert Settling(y, s, u);
      }
    }
  }

  lemma CommittedKeepsInv(x: Life, y: Life, t: ClientId)
    requires Inv(x) && Committed(x, y, t)
    ensures Inv(y)
  {
    CommittedKeepsTold(x, y, t);
    forall u | u in y.work ensures WorkFits(y, u) {
      assert WorkFits(x, u);
    }
    forall s, c | Later(y, s, c) ensures Settled(y, s) {
      assert Later(x, s, c);
      assert Settled(x, s);
    }
    forall o | o in y.opens ensures OpenFits(y, o) {
      assert OpenFits(x, o);
    }
    forall i, c | (i, c) in y.streams ensures StreamFits(y, i, c) {
      assert StreamFits(x, i, c);
    }
  }

  // ---------------------------------------------------------------------------
  // Turns

  /** Turns are only added for sessions without a tombstone, and never un-canceled or un-released. */
  ghost predicate TurnsProgress(x: Life, y: Life) {
    && x.tombs <= y.tombs
    && (forall i <- x.turns :: && i in y.turns && y.turns[i].session == x.turns[i].session
                               && (x.turns[i].canceled ==> y.turns[i].canceled)
                               && (x.turns[i].released ==> y.turns[i].released))
    && (forall i <- y.turns :: i in x.turns || (y.turns[i].session in x.homes && y.turns[i].session !in x.tombs))
  }

  lemma SettledStays(x: Life, y: Life, s: SessionId)
    requires TurnsProgress(x, y) && Settled(x, s)
    ensures Settled(y, s)
  {
  }

  lemma SettlingStays(x: Life, y: Life, s: SessionId, t: ClientId)
    requires TurnsProgress(x, y) && Settling(x, s, t) && t in y.work && y.work[t] == x.work[t]
    ensures Settling(y, s, t)
  {
  }

  /** Only turns, tombstones and the work of client `t` change. */
  ghost predicate OnlyTurns(x: Life, y: Life, t: ClientId) {
    && y == x.(turns := y.turns, running := y.running, tombs := y.tombs, work := y.work, clock := x.clock + 1)
    && TurnsProgress(x, y)
    && (forall u | u != t :: u in x.work <==> u in y.work)
    && (forall u | u != t && u in x.work :: y.work[u] == x.work[u])
    && (t in x.work <==> t in y.work)
  }

  lemma OnlyTurnsKeepsLater(x: Life, y: Life, t: ClientId)
    requires Inv(x) && OnlyTurns(x, y, t)
    ensures LaterFits(y) && StampsFit(y) && StreamsFit(y) && NamesFit(y)
  {
    forall s, c | Later(y, s, c) ensures Settled(y, s) {
      assert Later(x, s, c);
      SettledStays(x, y, s);
    }
    forall i, c | (i, c) in y.streams ensures StreamFits(y, i, c) {
      assert StreamFits(x, i, c);
    }
  }

  lemma OnlyTurnsKeepsInv(x: Life, y: Life, t: ClientId)
    requires Inv(x) && OnlyTurns(x, y, t) && RegistryFits(y)
    requires t in y.work ==> WorkFits(y, t)
    requires forall s :: Settling(x, s, t) ==> Settling(y, s, t) || Settled(y, s)
    requires forall o <- x.opens :: x.opens[o].turn in x.turns ==> !y.turns[x.opens[o].turn].released
    ensures Inv(y)
  {
    OnlyTurnsKeepsLater(x, y, t);
    forall u | u in y.work ensures WorkFits(y, u) {
      if u != t {
        assert WorkFits(x, u);
      }
    }
    forall s | s in y.told ensures Settled(y, s) || Underway(y, s) {
      if Settled(x, s) {
        SettledStays(x, y, s);
      } else {
        var u :| Settling(x, s, u);
        if u != t {
          SettlingStays(x, y, s, u);
        }
      }
    }
    forall o | o in y.opens ensures OpenFits(y, o) {
      assert OpenFits(x, o);
    }
  }

  lemma MarkKeepsInv(x: Life, t: ClientId)
    requires Inv(x) && Holds(x, t) && x.work[t].Marking?
    ensures Inv(Tick(x, DoMark(x, t)))
  {
    var sessions := x.work[t].sessions;
    var y := Tick(x, DoMark(x, t));
    assert WorkFits(x, t);
    forall s | Settling(x, s, t) ensures Settling(y, s, t) {
      forall i | i in y.turns && y.turns[i].session == s
        ensures y.turns[i].canceled || y.turns[i].released || i in TurnsOf(x, sessions)
      {
        assert !x.turns[i].released ==> x.running[s] == i;
      }
    }
    forall o | o in x.opens ensures !y.turns[x.opens[o].turn].released {
      assert OpenFits(x, o);
    }
    OnlyTurnsKeepsInv(x, y, t);
  }

  lemma CancelOneKeepsInv(x: Life, t: ClientId, turn: TurnId)
    requires Inv(x) && Holds(x, t) && x.work[t].Canceling? && turn in x.work[t].todo && turn in x.turns
    ensures Inv(Tick(x, DoCancelOne(x, t, turn)))
  {
    var y := Tick(x, DoCancelOne(x, t, turn));
    assert WorkFits(x, t);
    forall s | Settling(x, s, t) ensures Settling(y, s, t) {
    }
    forall o | o in x.opens ensures !y.turns[x.opens[o].turn].released {
      assert OpenFits(x, o);
    }
    OnlyTurnsKeepsInv(x, y, t);
  }

  lemma CanceledKeepsInv(x: Life, t: ClientId)
    requires Inv(x) && Holds(x, t) && x.work[t].Canceling? && x.work[t].todo == {}
    ensures Inv(Tick(x, Working(x, t, Detaching(x.work[t].sessions))))
  {
    var y := Tick(x, Working(x, t, Detaching(x.work[t].sessions)));
    forall s | Settling(x, s, t) ensures Settled(y, s) {
    }
    forall o | o in x.opens ensures !y.turns[x.opens[o].turn].released {
      assert OpenFits(x, o);
    }
    OnlyTurnsKeepsInv(x, y, t);
  }

  lemma SameWorkKeepsInv(x: Life, y: Life)
    requires Inv(x) && OnlyTurns(x, y, 0) && y.work == x.work && RegistryFits(y)
    requires forall o <- x.opens :: x.opens[o].turn in x.turns ==> !y.turns[x.opens[o].turn].released
    ensures Inv(y)
  {
    assert 0 in x.work ==> WorkFits(x, 0);
    forall s | Settling(x, s, 0) ensures Settling(y, s, 0) {
      SettlingStays(x, y, s, 0);
    }
    OnlyTurnsKeepsInv(x, y, 0);
  }

  lemma ReserveIsOnlyTurns(x: Life, turn: TurnId, sid: SessionId)
    requires RegistryFits(x) && turn !in x.turns && sid in x.homes && sid !in x.tombs && sid !in x.running
    ensures var y := Tick(x, DoReserve(x, turn, sid)); OnlyTurns(x, y, 0) && RegistryFits(y) && y.work == x.work
  {
  }

  lemma ReserveKeepsInv(x: Life, turn: TurnId, sid: SessionId)
    requires Inv(x) && turn !in x.turns && sid in x.homes && sid !in x.tombs && sid !in x.running
    ensures Inv(Tick(x, DoReserve(x, turn, sid)))
  {
    var y := Tick(x, DoReserve(x, turn, sid));
    ReserveIsOnlyTurns(x, turn, sid);
    forall o | o in x.opens ensures !y.turns[x.opens[o].turn].released {
      assert OpenFits(x, o);
    }
    SameWorkKeepsInv(x, y);
  }

  lemma CancelTurnKeepsInv(x: Life, turn: TurnId)
    requires Inv(x) && turn in x.turns
    ensures Inv(Tick(x, DoCancelTurn(x, turn)))
  {
    var y := Tick(x, DoCancelTurn(x, turn));
    forall o | o in x.opens ensures !y.turns[x.opens[o].turn].released {
      assert OpenFits(x, o);
    }
    SameWorkKeepsInv(x, y);
  }

  lemma ReleaseKeepsInv(x: Life, turn: TurnId)
    requires Inv(x) && turn in x.turns && !x.turns[turn].released && (forall o <- x.opens :: x.opens[o].turn != turn)
    ensures Inv(Tick(x, DoRelease(x, turn)))
  {
    var y := Tick(x, DoRelease(x, turn));
    forall o | o in x.opens ensures !y.turns[x.opens[o].turn].released {
      assert OpenFits(x, o);
    }
    SameWorkKeepsInv(x, y);
  }

  // ---------------------------------------------------------------------------
  // The tunnel manager

  /** Only the manager and the work of a client that settles nothing change; connections keep their device and their stamp. */
  ghost predicate OnlyTunnel(x: Life, y: Life, t: ClientId) {
    && y == x.(connections := y.connections, conns := y.conns, publishedAt := y.publishedAt, closing := y.closing,
               work := y.work, clock := x.clock + 1)
    && (y.work == x.work || (t in x.work && !InProgress(x.work[t]) && y.work == x.work[t := Leaving]))
    && (forall c <- x.conns :: c in y.conns && y.conns[c].device == x.conns[c].device)
    && (forall c <- x.publishedAt :: c in y.publishedAt && y.publishedAt[c] == x.publishedAt[c])
    && (forall c <- y.publishedAt :: c in x.publishedAt || y.publishedAt[c] == x.clock)
    && (forall c <- y.publishedAt :: c in y.conns)
    && (forall d <- y.connections :: y.connections[d] in y.publishedAt && y.conns[y.connections[d]].device == d)
  }

  lemma OnlyTunnelKeepsInv(x: Life, y: Life, t: ClientId)
    requires Inv(x) && OnlyTunnel(x, y, t)
    requires forall s, c :: Later(y, s, c) && c !in x.publishedAt ==> Settled(x, s)
    ensures Inv(y)
  {
    forall u | u in y.work ensures WorkFits(y, u) {
      assert WorkFits(x, u);
    }
    forall s | s in y.told ensures Settled(y, s) || Underway(y, s) {
      if !Settled(x, s) {
        var u :| Settling(x, s, u);
        assert Settling(y, s, u);
      }
    }
    forall s, c | Later(y, s, c) ensures Settled(y, s) {
      if c in x.publishedAt {
        assert Later(x, s, c);
      }
      assert Settled(x, s);
    }
    forall o | o in y.opens ensures OpenFits(y, o) {
      assert OpenFits(x, o);
    }
    forall i, c | (i, c) in y.streams ensures StreamFits(y, i, c) {
      assert StreamFits(x, i, c);
    }
  }

  /** Whoever may publish for a device finds every told session of it settled: the unpair has left the gate. */
  lemma PublisherFindsSettled(x: Life, t: ClientId, s: SessionId)
    requires Inv(x) && Holds(x, t) && !InProgress(x.work[t]) && s in x.told && s in x.homes && x.homes[s] == DeviceOf(x, t)
    ensures Settled(x, s)
  {
    if !Settled(x, s) {
      var u :| Settling(x, s, u);
      assert WorkFits(x, u);
      G.AtMostOneOwner(x.gate, t, u);
    }
  }

  lemma PublishIsOnlyTunnel(x: Life, t: ClientId)
    requires StampsFit(x) && Holds(x, t) && x.work[t].Publishing? && x.work[t].conn !in x.conns
    ensures var y := Tick(x, DoPublish(x, t));
            OnlyTunnel(x, y, t) && forall c <- y.publishedAt :: c in x.publishedAt || y.conns[c].device == DeviceOf(x, t)
  {
  }

  lemma PublishKeepsInv(x: Life, t: ClientId)
    requires Inv(x) && Holds(x, t) && x.work[t].Publishing? && x.work[t].conn !in x.conns
    ensures Inv(Tick(x, DoPublish(x, t)))
  {
    var y := Tick(x, DoPublish(x, t));
    PublishIsOnlyTunnel(x, t);
    forall s, c | Later(y, s, c) && c !in x.publishedAt ensures Settled(x, s) {
      PublisherFindsSettled(x, t, s);
    }
    OnlyTunnelKeepsInv(x, y, t);
  }

  lemma DetachKeepsInv(x: Life, t: ClientId)
    requires Inv(x) && Holds(x, t) && x.work[t].Detaching?
    ensures Inv(Tick(x, DoDetach(x, t)))
  {
    OnlyTunnelKeepsInv(x, Tick(x, DoDetach(x, t)), t);
  }

  lemma RemoveIsOnlyTunnel(x: Life, conn: ConnId)
    requires StampsFit(x) && conn in x.conns
    ensures var y := Tick(x, DoRemove(x, conn)); OnlyTunnel(x, y, 0) && y.publishedAt == x.publishedAt
  {
  }

  lemma RemoveKeepsInv(x: Life, conn: ConnId)
    requires Inv(x) && conn in x.conns
    ensures Inv(Tick(x, DoRemove(x, conn)))
  {
    RemoveIsOnlyTunnel(x, conn);
    OnlyTunnelKeepsInv(x, Tick(x, DoRemove(x, conn)), 0);
  }

  lemma ShutKeepsInv(x: Life, conn: ConnId)
    requires Inv(x) && conn in x.conns
    ensures Inv(Tick(x, DoShut(x, conn)))
  {
    OnlyTunnelKeepsInv(x, Tick(x, DoShut(x, conn)), 0);
  }

  lemma CloseAllKeepsInv(x: Life)
    requires Inv(x)
    ensures Inv(Tick(x, DoCloseAll(x)))
  {
    OnlyTunnelKeepsInv(x, Tick(x, DoCloseAll(x)), 0);
  }

  lemma GiveUpKeepsInv(x: Life, t: ClientId)
    requires Inv(x) && Holds(x, t) && x.work[t].Publishing?
    ensures Inv(Tick(x, Working(x, t, Leaving)))
  {
    OnlyTunnelKeepsInv(x, Tick(x, Working(x, t, Leaving)), t);
  }

  // ---------------------------------------------------------------------------
  // Opening a stream

  lemma OnlyOpensKeepsInv(x: Life, y: Life)
    requires Inv(x) && y == x.(opens := y.opens, streams := y.streams, clock := x.clock + 1)
    requires forall o <- y.opens :: OpenFits(y, o)
    requires StreamsFit(y)
    ensures Inv(y)
  {
    SameHistoryKeeps(x, y);
    forall u | u in y.work ensures WorkFits(y, u) {
      assert WorkFits(x, u);
    }
  }

  lemma OnlyOpenKeepsInv(x: Life, opens: map<OpenId, Open>)
    requires Inv(x) && forall o <- opens :: OpenFits(x.(opens := opens), o)
    ensures Inv(x.(opens := opens, clock := x.clock + 1))
  {
    var y := x.(opens := opens, clock := x.clock + 1);
    assert SameHistory(x, y);
    SameHistoryKeeps(x, y);
    forall o | o in opens ensures OpenFits(y, o) {
      assert OpenFits(x.(opens := opens), o);
    }
    OnlyOpensKeepsInv(x, y);
  }

  predicate NewOpenFits(x: Life, v: Open) {
    && v.turn in x.turns && !x.turns[v.turn].released
    && (v.pc.Picked? || v.pc.Ready? ==>
          && v.pc.conn in x.publishedAt && v.pc.conn in x.conns
          && x.turns[v.turn].session in x.homes && x.conns[v.pc.conn].device == x.homes[x.turns[v.turn].session])
  }

  lemma OpenMoveKeepsInv(x: Life, o: OpenId, v: Open)
    requires Inv(x) && NewOpenFits(x, v)
    ensures Inv(Tick(x, DoOpen(x, o, v)))
  {
    var opens := x.opens[o := v];
    forall k | k in opens ensures OpenFits(x.(opens := opens), k) {
      if k != o {
        assert OpenFits(x, k);
      }
    }
    OnlyOpenKeepsInv(x, opens);
  }

  /** What the manager hands out is a published connection of the turn's own device. */
  lemma PickFits(x: Life, o: OpenId)
    requires StampsFit(x) && o in x.opens && OpenFits(x, o) && PickableConn(x, o).Some?
    ensures NewOpenFits(x, x.opens[o].(pc := Picked(PickableConn(x, o).value)))
  {
    var d := x.homes[x.turns[x.opens[o].turn].session];
    assert x.connections[d] in x.publishedAt;
  }

  lemma FailKeepsInv(x: Life, o: OpenId)
    requires Inv(x) && o in x.opens
    ensures Inv(Tick(x, DoFail(x, o)))
  {
    var opens := x.opens - {o};
    forall k | k in opens ensures OpenFits(x.(opens := opens), k) {
      assert OpenFits(x, k);
    }
    OnlyOpenKeepsInv(x, opens);
  }

  lemma PickKeepsInv(x: Life, o: OpenId)
    requires Inv(x) && o in x.opens && PickableConn(x, o).Some?
    ensures Inv(Tick(x, DoOpen(x, o, x.opens[o].(pc := Picked(PickableConn(x, o).value)))))
  {
    assert OpenFits(x, o);
    PickFits(x, o);
    OpenMoveKeepsInv(x, o, x.opens[o].(pc := Picked(PickableConn(x, o).value)));
  }

  lemma SetUpKeepsInv(x: Life, o: OpenId)
    requires Inv(x) && o in x.opens && x.opens[o].pc.Picked?
    ensures Inv(Tick(x, DoOpen(x, o, x.opens[o].(pc := Ready(x.opens[o].pc.conn)))))
  {
    assert OpenFits(x, o);
    OpenMoveKeepsInv(x, o, x.opens[o].(pc := Ready(x.opens[o].pc.conn)));
  }

  /** A stream that succeeds is not on a connection published after the turn's session was revoked. */
  lemma FinishedStreamIsNotLater(x: Life, o: OpenId)
    requires Inv(x) && o in x.opens && x.opens[o].pc.Ready? && MayFinish(x, o)
    ensures !Later(x, x.turns[x.opens[o].turn].session, x.opens[o].pc.conn)
  {
    assert OpenFits(x, o);
    var s := x.turns[x.opens[o].turn].session;
    assert Later(x, s, x.opens[o].pc.conn) ==> Settled(x, s);
  }

  lemma FinishKeepsInv(x: Life, o: OpenId)
    requires Inv(x) && o in x.opens && x.opens[o].pc.Ready? && MayFinish(x, o)
    ensures Inv(Tick(x, DoSucceed(x, o)))
  {
    var y := Tick(x, DoSucceed(x, o));
    assert OpenFits(x, o);
    FinishedStreamIsNotLater(x, o);
    assert SameHistory(x, y);
    forall i, c | (i, c) in y.streams ensures StreamFits(y, i, c) {
      assert (i, c) in x.streams ==> StreamFits(x, i, c);
      LaterSame(x, y, x.turns[i].session, c);
    }
    forall k | k in y.opens ensures OpenFits(y, k) {
      assert OpenFits(x, k);
    }
    OnlyOpensKeepsInv(x, y);
  }

  // ---------------------------------------------------------------------------
  // Every run

  lemma CommitKeepsInv(x: Life, t: ClientId, now: Time, io: Io)
    requires Inv(x) && Holds(x, t) && x.work[t].Committing?
    ensures Inv(Tick(x, DoCommit(x, t, now, io)))
  {
    CommitIsCommitted(x, t, now, io);
    CommittedKeepsInv(x, Tick(x, DoCommit(x, t, now, io)), t);
  }

  lemma BeginKeepsInv(x: Life, t: ClientId, device: DeviceId, work: Work, spare: G.EntryId)
    requires Inv(x) && t !in x.work && !InProgress(work) && G.Enabled(x.gate, G.Enter(t, device, spare))
    ensures Inv(Tick(x, DoBegin(x, t, device, work, spare)))
  {
    G.StepKeepsInv(x.gate, G.Enter(t, device, spare));
    BeginIsOnlyClient(x, t, device, work, spare);
    OnlyClientKeepsInv(x, Tick(x, DoBegin(x, t, device, work, spare)), t);
  }

  lemma GateStepKeepsInv(x: Life, g: G.Step)
    requires Inv(x) && Enabled(x, GateStep(g))
    ensures Inv(Tick(x, DoGate(x, g)))
  {
    var y := Tick(x, DoGate(x, g));
    assert G.Inv(y.gate) by {
      G.StepKeepsInv(x.gate, g);
    }
    assert OnlyClient(x, y, g.t) by {
      assert g.t in x.work ==> WorkFits(x, g.t);
      GateStepIsOnlyClient(x, g);
    }
    OnlyClientKeepsInv(x, y, g.t);
  }

  lemma ClientStepKeepsInv(x: Life, s: Step)
    requires Inv(x) && Enabled(x, s) && (s.Begin? || s.GateStep?)
    ensures Inv(Take(x, s))
  {
    match s
    case Begin(t, device, work, spare) => BeginKeepsInv(x, t, device, work, spare);
    case GateStep(g) => GateStepKeepsInv(x, g);
  }

  lemma RevokingStepKeepsInv(x: Life, s: Step)
    requires Inv(x) && Enabled(x, s) && (s.Commit? || s.Mark?)
    ensures Inv(Take(x, s))
  {
    match s
    case Commit(t, now, io) => CommitKeepsInv(x, t, now, io);
    case Mark(t) => MarkKeepsInv(x, t);
  }

  lemma CancelingStepKeepsInv(x: Life, s: Step)
    requires Inv(x) && Enabled(x, s) && (s.CancelOne? || s.Canceled? || s.Detach?)
    ensures Inv(Take(x, s))
  {
    match s
    case CancelOne(t, turn) => CancelOneKeepsInv(x, t, turn);
    case Canceled(t) => CanceledKeepsInv(x, t);
    case Detach(t) => DetachKeepsInv(x, t);
  }

  lemma TurnStepKeepsInv(x: Life, s: Step)
    requires Inv(x) && Enabled(x, s) && (s.Reserve? || s.CancelTurn? || s.Release?)
    ensures Inv(Take(x, s))
  {
    match s
    case Reserve(turn, sid) => ReserveKeepsInv(x, turn, sid);
    case CancelTurn(turn) => CancelTurnKeepsInv(x, turn);
    case Release(turn) => ReleaseKeepsInv(x, turn);
  }

  lemma TunnelStepKeepsInv(x: Life, s: Step)
    requires Inv(x) && Enabled(x, s) && (s.Publish? || s.GiveUp?)
    ensures Inv(Take(x, s))
  {
    match s
    case Publish(t) => PublishKeepsInv(x, t);
    case GiveUp(t) => GiveUpKeepsInv(x, t);
  }

  lemma PickingStepKeepsInv(x: Life, s: Step)
    requires Inv(x) && Enabled(x, s) && (s.Enter? || s.Pick? || s.SetUp?)
    ensures Inv(Take(x, s))
  {
    match s
    case Enter(o, turn) => OpenMoveKeepsInv(x, o, Open(turn, Entered));
    case Pick(o) => PickKeepsInv(x, o);
    case SetUp(o) => SetUpKeepsInv(x, o);
  }

  lemma StepKeepsInv(x: Life, s: Step)
    requires Inv(x) && Enabled(x, s)
    ensures Inv(Take(x, s))
  {
    match s
    case Begin(_, _, _, _) | GateStep(_) => ClientStepKeepsInv(x, s);
    case Commit(_, _, _) | Mark(_) => RevokingStepKeepsInv(x, s);
    case CancelOne(_, _) | Canceled(_) | Detach(_) => CancelingStepKeepsInv(x, s);
    case Reserve(_, _) | CancelTurn(_) | Release(_) => TurnStepKeepsInv(x, s);
    case Publish(_) | GiveUp(_) => TunnelStepKeepsInv(x, s);
    case Enter(_, _) | Pick(_) | SetUp(_) => PickingStepKeepsInv(x, s);
    case External(st) => ExternalKeepsInv(x, st);
    case Remove(conn) => RemoveKeepsInv(x, conn);
    case Shut(conn) => ShutKeepsInv(x, conn);
    case CloseAll => CloseAllKeepsInv(x);
    case Finish(o) => FinishKeepsInv(x, o);
    case Fail(o) => FailKeepsInv(x, o);
  }

  lemma {:induction false} PathKeepsInv(x: Life, steps: seq<Step>, y: Life)
    requires Path(x, steps, y) && Inv(x)
    ensures Inv(y)
    decreases |steps|
  {
    if steps != [] {
      StepKeepsInv(x, steps[0]);
      PathKeepsInv(Take(x, steps[0]), steps[1..], y);
    }
  }

  // ---------------------------------------------------------------------------
  // The stamps

  /** Every stamp lies in the past, and nothing is told before it was revoked. */
  predicate HistoryFits(x: Life) {
    && (forall s <- x.revokedAt :: x.revokedAt[s] < x.clock)
    && (forall s <- x.told :: s in x.revokedAt && x.revokedAt[s] <= x.told[s] < x.clock)
  }

  predicate SameStamps(x: Life, y: Life) {
    y.told == x.told && y.revokedAt == x.revokedAt && y.clock == x.clock + 1
  }

  lemma ClientStepStampsNothing(x: Life, s: Step)
    requires Enabled(x, s) && (s.External? || s.Begin? || s.GateStep? || s.Mark? || s.CancelOne? || s.Canceled? || s.Detach?)
    ensures SameStamps(x, Take(x, s))
  {
  }

  lemma TunnelStepStampsNothing(x: Life, s: Step)
    requires Enabled(x, s) && (s.Publish? || s.GiveUp? || s.Remove? || s.Shut? || s.CloseAll?)
    ensures SameStamps(x, Take(x, s))
  {
  }

  lemma TurnStepStampsNothing(x: Life, s: Step)
    requires Enabled(x, s) && (s.Reserve? || s.CancelTurn? || s.Release?)
    ensures SameStamps(x, Take(x, s))
  {
  }

  lemma OpenStepStampsNothing(x: Life, s: Step)
    requires Enabled(x, s) && (s.Enter? || s.Pick? || s.SetUp? || s.Finish? || s.Fail?)
    ensures SameStamps(x, Take(x, s))
  {
  }

  lemma OnlyCommitStamps(x: Life, s: Step)
    requires Enabled(x, s) && !s.Commit?
    ensures SameStamps(x, Take(x, s))
  {
    match s
    case External(_) | Begin(_, _, _, _) | GateStep(_) | Mark(_) | CancelOne(_, _) | Canceled(_) | Detach(_) =>
      ClientStepStampsNothing(x, s);
    case Publish(_) | GiveUp(_) | Remove(_) | Shut(_) | CloseAll => TunnelStepStampsNothing(x, s);
    case _ =>
      if s.Reserve? || s.CancelTurn? || s.Release? {
        TurnStepStampsNothing(x, s);
      } else {
        OpenStepStampsNothing(x, s);
      }
  }

  /** Stamps stay, and new ones carry the current time. */
  predicate StampsAdded(x: Life, y: Life) {
    && y.clock == x.clock + 1
    && (forall s <- x.revokedAt :: s in y.revokedAt && y.revokedAt[s] == x.revokedAt[s])
    && (forall s <- y.revokedAt :: s in x.revokedAt || y.revokedAt[s] == x.clock)
    && (forall s <- x.told :: s in y.told && y.told[s] == x.told[s])
    && (forall s <- y.told :: s in x.told || (y.told[s] == x.clock && s in y.revokedAt))
  }

  lemma ApplyStamps(x: Life, t: ClientId, now: Time, ok: bool)
    requires Holds(x, t) && x.work[t].Committing?
    ensures StampsAdded(x, Tick(x, DoApply(x, t, now, ok)))
  {
  }

  lemma LeavingStampsNothing(x: Life, t: ClientId)
    requires t in x.work
    ensures StampsAdded(x, Tick(x, Working(x, t, Leaving)))
  {
  }

  lemma CommitStamps(x: Life, t: ClientId, now: Time, io: Io)
    requires Holds(x, t) && x.work[t].Committing?
    ensures StampsAdded(x, Tick(x, DoCommit(x, t, now, io)))
  {
    var y := DoCommit(x, t, now, io);
    if y == Working(x, t, Leaving) {
      LeavingStampsNothing(x, t);
    } else {
      assert y == DoApply(x, t, now, io.Ok?);
      ApplyStamps(x, t, now, io.Ok?);
    }
  }

  lemma AddingKeepsHistory(x: Life, y: Life)
    requires StampsAdded(x, y) && HistoryFits(x)
    ensures HistoryFits(y)
  {
  }

  lemma {:induction false} HistoryHolds(x: Life, steps: seq<Step>, y: Life)
    requires Path(x, steps, y) && HistoryFits(x)
    ensures HistoryFits(y)
    decreases |steps|
  {
    if steps != [] {
      if steps[0].Commit? {
        CommitStamps(x, steps[0].t, steps[0].now, steps[0].io);
      } else {
        OnlyCommitStamps(x, steps[0]);
      }
      AddingKeepsHistory(x, Take(x, steps[0]));
      HistoryHolds(Take(x, steps[0]), steps[1..], y);
    }
  }

  /**
   A turn whose session was covered by an acknowledged unpair never gets a stream
   on a connection published after that unpair committed.  The stamp is that of the
   first such unpair, so the same holds for every later one.
   */
  lemma NoStreamOnLaterConnection(steps: seq<Step>, x: Life, turn: TurnId, c: ConnId)
    requires Path(NEW, steps, x) && (turn, c) in x.streams
    ensures turn in x.turns && c in x.publishedAt
    ensures var s := x.turns[turn].session;
            s in x.told ==> s in x.revokedAt && x.revokedAt[s] <= x.told[s] && x.publishedAt[c] <= x.told[s]
  {
    NewHolds();
    PathKeepsInv(NEW, steps, x);
    HistoryHolds(NEW, steps, x);
    assert StreamFits(x, turn, c);
  }

  /** The stamp is what it says: an acknowledged unpair has stamped every session it covers, at the latest with its own time. */
  lemma AcknowledgedIsTold(x: Life, t: ClientId, now: Time, s: SessionId)
    requires Holds(x, t) && x.work[t].Committing? && Schema.Unpair(x.db, x.work[t].user, DeviceOf(x, t), now).reply.Done?
    requires s in CoveredSessions(x.db.sessions, x.work[t].user, DeviceOf(x, t)) && HistoryFits(x)
    ensures var y := Take(x, Commit(t, now, Ok)); s in y.told && y.told[s] <= x.clock
  {
  }
}
