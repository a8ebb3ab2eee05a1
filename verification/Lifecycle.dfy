/**
 Unpairing against running turns and tunnel publication.  Unpair and
 publication are clients of the device gate; turns live in the agent service's
 registry; opening an SSH stream picks a connection from the tunnel manager and
 looks at the turn's context last.  Every step may interleave with every other.
 */
module Lifecycle {
  import opened Base
  import opened Schema
  import opened SchemaInvariant
  import G = DeviceGate

  type TurnId = int
  type ConnId = int
  type OpenId = int
  type ClientId = int

  /** The critical section of a gate client; `Leaving` may only unlock. */
  datatype Work =
    | Committing(user: UserId)
    | Marking(sessions: set<SessionId>)
    | Canceling(sessions: set<SessionId>, todo: set<TurnId>)
    | Detaching(sessions: set<SessionId>)
    | Publishing(conn: ConnId)
    | Leaving

  datatype Turn = Turn(session: SessionId, canceled: bool, released: bool)

  datatype Conn = Conn(device: DeviceId, closed: bool)

  datatype OpenPc = Entered | Picked(conn: ConnId) | Ready(conn: ConnId)

  datatype Open = Open(turn: TurnId, pc: OpenPc)

  /**
   The last five fields are history: when a connection was published, when a
   session was first revoked, when an acknowledged unpair first covered it, and
   which streams succeeded.
   */
  datatype Life = Life(
    db: Tables,
    gate: G.Gate,
    work: map<ClientId, Work>,
    homes: map<SessionId, DeviceId>,
    turns: map<TurnId, Turn>,
    running: map<SessionId, TurnId>,
    tombs: set<SessionId>,
    connections: map<DeviceId, ConnId>,
    conns: map<ConnId, Conn>,
    closing: bool,
    opens: map<OpenId, Open>,
    clock: nat,
    publishedAt: map<ConnId, nat>,
    revokedAt: map<SessionId, nat>,
    told: map<SessionId, nat>,
    streams: set<(TurnId, ConnId)>)

  datatype Step =
    | External(st: Statement)
    | Begin(t: ClientId, device: DeviceId, work: Work, spare: G.EntryId)
    | GateStep(s: G.Step)
    | Commit(t: ClientId, now: Time, io: Io)
    | Mark(t: ClientId)
    | CancelOne(t: ClientId, turn: TurnId)
    | Canceled(t: ClientId)
    | Detach(t: ClientId)
    | Publish(t: ClientId)
    | GiveUp(t: ClientId)
    | Reserve(turn: TurnId, sid: SessionId)
    | CancelTurn(turn: TurnId)
    | Release(turn: TurnId)
    | Remove(conn: ConnId)
    | Shut(conn: ConnId)
    | CloseAll
    | Enter(o: OpenId, turn: TurnId)
    | Pick(o: OpenId)
    | SetUp(o: OpenId)
    | Finish(o: OpenId)
    | Fail(o: OpenId)

  const NEW := Life(EMPTY, G.NEW, map[], map[], map[], map[], {}, map[], map[], false, map[], 0, map[], map[], map[], {})

  predicate Holds(x: Life, t: ClientId) {
    t in x.work && G.At(x.gate, t, G.Holding)
  }

  function DeviceOf(x: Life, t: ClientId): DeviceId
    requires Holds(x, t)
  {
    x.gate.clients[t].device
  }

  /** Statements of the rest of the product; only Unpair revokes, and session ids are never used twice. */
  predicate ExternalStatement(x: Life, st: Statement) {
    !st.DoUnpair? && (st.DoCreateSession? ==> st.sid !in x.homes)
  }

  /** A turn is a client of the manager only while it is in the registry. */
  predicate Enabled(x: Life, s: Step) {
    match s
    case External(st) => ExternalStatement(x, st)
    case Begin(t, device, work, spare) =>
      && t !in x.work && G.Enabled(x.gate, G.Enter(t, device, spare))
      && (work.Committing? || (work.Publishing? && work.conn !in x.conns))
    case GateStep(g) =>
      && !g.Enter? && G.Enabled(x.gate, g)
      && (g.Unlock? ==> g.t in x.work && x.work[g.t].Leaving?)
    case Commit(t, _, _) => Holds(x, t) && x.work[t].Committing?
    case Mark(t) => Holds(x, t) && x.work[t].Marking?
    case CancelOne(t, turn) => Holds(x, t) && x.work[t].Canceling? && turn in x.work[t].todo && turn in x.turns
    case Canceled(t) => Holds(x, t) && x.work[t].Canceling? && x.work[t].todo == {}
    case Detach(t) => Holds(x, t) && x.work[t].Detaching?
    case Publish(t) => Holds(x, t) && x.work[t].Publishing? && x.work[t].conn !in x.conns
    case GiveUp(t) => Holds(x, t) && x.work[t].Publishing?
    case Reserve(turn, sid) => turn !in x.turns && sid in x.homes && sid !in x.tombs && sid !in x.running
    case CancelTurn(turn) => turn in x.turns
    case Release(turn) => turn in x.turns && !x.turns[turn].released && forall o <- x.opens :: x.opens[o].turn != turn
    case Remove(conn) => conn in x.conns
    case Shut(conn) => conn in x.conns
    case CloseAll => true
    case Enter(o, turn) => o !in x.opens && turn in x.turns && !x.turns[turn].released && !x.turns[turn].canceled
    case Pick(o) => o in x.opens && x.opens[o].pc.Entered? && PickableConn(x, o).Some?
    case SetUp(o) => o in x.opens && x.opens[o].pc.Picked?
    case Finish(o) => o in x.opens && x.opens[o].pc.Ready? && MayFinish(x, o)
    case Fail(o) => o in x.opens
  }

  /** The live connection the manager would hand out for the turn's device. */
  function PickableConn(x: Life, o: OpenId): Option<ConnId>
    requires o in x.opens
  {
    var turn := x.opens[o].turn;
    if turn in x.turns && x.turns[turn].session in x.homes && x.homes[x.turns[turn].session] in x.connections then
      var c := x.connections[x.homes[x.turns[turn].session]];
      if c in x.conns && !x.conns[c].closed then Some(c) else None
    else
      None
  }

  /** The last look before success: neither the turn's context nor the connection may be done. */
  predicate MayFinish(x: Life, o: OpenId)
    requires o in x.opens && x.opens[o].pc.Ready?
  {
    var c := x.opens[o].pc.conn;
    && x.opens[o].turn in x.turns && !x.turns[x.opens[o].turn].canceled
    && c in x.conns && !x.conns[c].closed
  }

  function CloseConn(conns: map<ConnId, Conn>, c: ConnId): map<ConnId, Conn> {
    if c in conns then conns[c := conns[c].(closed := true)] else conns
  }

  function Working(x: Life, t: ClientId, w: Work): Life {
    x.(work := x.work[t := w])
  }

  function TurnsOf(x: Life, sessions: set<SessionId>): set<TurnId> {
    set s | s in sessions && s in x.running :: x.running[s]
  }

  /** Sessions without a stamp get the current one. */
  function Stamped(stamps: map<SessionId, nat>, sessions: set<SessionId>, clock: nat): (r: map<SessionId, nat>)
    ensures r.Keys == stamps.Keys + sessions
    ensures forall s <- r :: r[s] == if s in stamps then stamps[s] else clock
  {
    map s | s in stamps.Keys + sessions :: if s in stamps then stamps[s] else clock
  }

  /** The commit took effect; what follows depends on whether it was acknowledged. */
  function DoApply(x: Life, t: ClientId, now: Time, ok: bool): Life
    requires Holds(x, t) && x.work[t].Committing?
  {
    var user, device := x.work[t].user, DeviceOf(x, t);
    var covered := CoveredSessions(x.db.sessions, user, device);
    Working(x, t, if ok then Marking(covered) else Leaving)
    .(db := Schema.Unpair(x.db, user, device, now).tables,
      revokedAt := Stamped(x.revokedAt, covered, x.clock),
      told := if ok then Stamped(x.told, covered, x.clock) else x.told)
  }

  /** The durable half of Unpair: only an acknowledged commit goes on to mark the sessions. */
  function DoCommit(x: Life, t: ClientId, now: Time, io: Io): Life
    requires Holds(x, t) && x.work[t].Committing?
  {
    if !Schema.Unpair(x.db, x.work[t].user, DeviceOf(x, t), now).reply.Done? || io.LostBefore? then Working(x, t, Leaving)
    else DoApply(x, t, now, io.Ok?)
  }

  /** Newest wins: the connection it replaces is closed, unless the manager is closing. */
  function DoPublish(x: Life, t: ClientId): Life
    requires Holds(x, t) && x.work[t].Publishing? && x.work[t].conn !in x.conns
  {
    var c, d := x.work[t].conn, DeviceOf(x, t);
    if x.closing then Working(x, t, Leaving).(conns := x.conns[c := Conn(d, true)])
    else
      var conns := if d in x.connections then CloseConn(x.conns, x.connections[d]) else x.conns;
      Working(x, t, Leaving)
      .(conns := conns[c := Conn(d, false)], connections := x.connections[d := c], publishedAt := x.publishedAt[c := x.clock])
  }

  function DoMark(x: Life, t: ClientId): Life
    requires Holds(x, t) && x.work[t].Marking?
  {
    var sessions := x.work[t].sessions;
    Working(x, t, Canceling(sessions, TurnsOf(x, sessions))).(tombs := x.tombs + sessions)
  }

  function DoCancelOne(x: Life, t: ClientId, turn: TurnId): Life
    requires Holds(x, t) && x.work[t].Canceling? && turn in x.turns
  {
    Working(x, t, x.work[t].(todo := x.work[t].todo - {turn}))
    .(turns := x.turns[turn := x.turns[turn].(canceled := true)])
  }

  function DoDetach(x: Life, t: ClientId): Life
    requires Holds(x, t)
  {
    var d := DeviceOf(x, t);
    Working(x, t, Leaving)
    .(connections := x.connections - {d},
      conns := if d in x.connections then CloseConn(x.conns, x.connections[d]) else x.conns)
  }

  function DoReserve(x: Life, turn: TurnId, sid: SessionId): Life {
    x.(turns := x.turns[turn := Turn(sid, false, false)], running := x.running[sid := turn])
  }

  function DoCancelTurn(x: Life, turn: TurnId): Life
    requires turn in x.turns
  {
    x.(turns := x.turns[turn := x.turns[turn].(canceled := true)])
  }

  function DoRelease(x: Life, turn: TurnId): Life
    requires turn in x.turns
  {
    x.(turns := x.turns[turn := x.turns[turn].(released := true)], running := x.running - {x.turns[turn].session})
  }

  function DoRemove(x: Life, conn: ConnId): Life
    requires conn in x.conns
  {
    var d := x.conns[conn].device;
    x.(connections := if d in x.connections && x.connections[d] == conn then x.connections - {d} else x.connections)
  }

  /** A connection closes by itself at any time: its handler ends, or its transport fails. */
  function DoShut(x: Life, conn: ConnId): Life {
    x.(conns := CloseConn(x.conns, conn))
  }

  function DoCloseAll(x: Life): Life {
    x.(closing := true, connections := map[], conns := map c | c in x.conns :: x.conns[c].(closed := true))
  }

  function DoOpen(x: Life, o: OpenId, v: Open): Life {
    x.(opens := x.opens[o := v])
  }

  function DoSucceed(x: Life, o: OpenId): Life
    requires o in x.opens && x.opens[o].pc.Ready?
  {
    x.(opens := x.opens - {o}, streams := x.streams + {(x.opens[o].turn, x.opens[o].pc.conn)})
  }

  function DoFail(x: Life, o: OpenId): Life {
    x.(opens := x.opens - {o})
  }

  ghost function DoExternal(x: Life, st: Statement): Life {
    x.(db := Apply(x.db, st).tables,
       homes := if st.DoCreateSession? then x.homes[st.sid := st.device] else x.homes)
  }

  ghost function DoGate(x: Life, g: G.Step): Life
    requires G.Enabled(x.gate, g)
  {
    x.(gate := G.Take(x.gate, g), work := if g.Drop? then x.work - {g.t} else x.work)
  }

  ghost function DoBegin(x: Life, t: ClientId, device: DeviceId, work: Work, spare: G.EntryId): Life
    requires G.Enabled(x.gate, G.Enter(t, device, spare))
  {
    Working(x, t, work).(gate := G.Take(x.gate, G.Enter(t, device, spare)))
  }

  ghost function Effect(x: Life, s: Step): Life
    requires Enabled(x, s)
  {
    match s
    case External(st) => DoExternal(x, st)
    case Begin(t, device, work, spare) => DoBegin(x, t, device, work, spare)
    case GateStep(g) => DoGate(x, g)
    case Commit(t, now, io) => DoCommit(x, t, now, io)
    case Mark(t) => DoMark(x, t)
    case CancelOne(t, turn) => DoCancelOne(x, t, turn)
    case Canceled(t) => Working(x, t, Detaching(x.work[t].sessions))
    case Detach(t) => DoDetach(x, t)
    case Publish(t) => DoPublish(x, t)
    case GiveUp(t) => Working(x, t, Leaving)
    case Reserve(turn, sid) => DoReserve(x, turn, sid)
    case CancelTurn(turn) => DoCancelTurn(x, turn)
    case Release(turn) => DoRelease(x, turn)
    case Remove(conn) => DoRemove(x, conn)
    case Shut(conn) => DoShut(x, conn)
    case CloseAll => DoCloseAll(x)
    case Enter(o, turn) => DoOpen(x, o, Open(turn, Entered))
    case Pick(o) => DoOpen(x, o, x.opens[o].(pc := Picked(PickableConn(x, o).value)))
    case SetUp(o) => DoOpen(x, o, x.opens[o].(pc := Ready(x.opens[o].pc.conn)))
    case Finish(o) => DoSucceed(x, o)
    case Fail(o) => DoFail(x, o)
  }

  function Tick(x: Life, y: Life): Life {
    y.(clock := x.clock + 1)
  }

  ghost function Take(x: Life, s: Step): Life
    requires Enabled(x, s)
  {
    Tick(x, Effect(x, s))
  }

  /** Taking the steps one after another leads from `x` to `y`. */
  ghost predicate Path(x: Life, steps: seq<Step>, y: Life)
    decreases |steps|
  {
    if steps == [] then x == y
    else Enabled(x, steps[0]) && Path(Take(x, steps[0]), steps[1..], y)
  }
}
