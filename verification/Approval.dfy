/**
 The approval protocol: tool invocations, decisions, turns and unpairing over
 one database, as a step system.  A step is one database statement or one
 critical section of the service; the steps of all goroutines interleave
 freely, and every database call may also end as `LostBefore` or `LostAfter`.
 */
module Approval {
  import opened Base
  import opened Schema
  import opened SchemaInvariant

  /** The registered waiter of one call; `mail` is its one-place decision channel. */
  datatype Wait = Wait(session: SessionId, user: UserId, mail: Option<Decision>)

  datatype Phase = Reserved | Begun | Active | Ending

  /** A running turn; `mode` is the approval mode it holds in memory, `current` the call inside its gate. */
  datatype Turn = Turn(user: UserId, phase: Phase, mode: ApprovalMode, current: Option<CallId>)

  /** Where finishing a call stands: first failing a pending row, then writing, then compensating. */
  datatype FinishPc =
    | FailUpdate(attempt: nat) | FailLookup(attempt: nat, hit: bool) | Look
    | Write(attempt: nat) | Check(attempt: nat) | Redo(attempt: nat) | Recheck(attempt: nat)

  datatype Pc =
    | Create(full: bool)
    | Register | Reconcile | Unregister | Deliver(d: Decision)
    | MarkWaiting | Select | Confirm(d: Decision) | MarkRunning(d: Decision)
    | AbortUpdate(attempt: nat) | AbortLookup(attempt: nat, hit: bool)
    | Leave(result: Option<Decision>)
    | Start(d: Decision)
    | CheckDevice | Execute | Executing
    | Finish(want: CallStatus, at: FinishPc)
    | Finished(want: CallStatus, status: Option<CallStatus>, ok: bool)
    | Return

  datatype Invocation = Invocation(session: SessionId, user: UserId, pc: Pc)

  /** A decision that is committed and whose caller has not yet looked for the waiter. */
  datatype Notice = Notice(call: CallId, session: SessionId, user: UserId, decision: Decision)

  datatype Event = ExecReached(call: CallId) | ToolCompleted(call: CallId, status: CallStatus)

  datatype World = World(
    db: Tables,
    turns: map<SessionId, Turn>,
    waits: map<CallId, Wait>,
    tombs: set<SessionId>,
    invokes: map<CallId, Invocation>,
    notices: map<int, Notice>,
    usedSessions: set<SessionId>,
    usedCalls: set<CallId>,
    silent: set<CallId>,
    acks: map<CallId, Decision>,
    events: seq<Event>)

  datatype Step =
    | External(st: Statement)
    | Tombstone(sid: SessionId)
    | DecideCommit(user: UserId, cid: CallId, decision: Decision, io: Io, notice: int)
    | DecideNotify(notice: int)
    | Reserve(sid: SessionId, user: UserId)
    | Begin(sid: SessionId, io: Io)
    | Reread(sid: SessionId, io: Io)
    | Settle(sid: SessionId, state: SessionState, io: Io)
    | Release(sid: SessionId)
    | Invoke(sid: SessionId, cid: CallId)
    | Advance(cid: CallId, io: Io, arm: bool, text: string, exit: int, now: Time)

  predicate Init(w: World) {
    && w.db == EMPTY && w.turns == map[] && w.waits == map[] && w.tombs == {} && w.invokes == map[]
    && w.notices == map[] && w.usedSessions == {} && w.usedCalls == {} && w.silent == {} && w.acks == map[]
    && w.events == []
  }

  // ---------------------------------------------------------------------------
  // The rest of the product

  /** Statements other parts of the product may run at any moment; session ids are never used twice. */
  predicate ExternalStatement(w: World, st: Statement) {
    || st.DoRegister? || st.DoCreateCode? || st.DoClaim? || st.DoUnpair? || st.DoSetMode? || st.DoSetArchived?
    || st.DoDeleteSession? || (st.DoCreateSession? && st.sid !in w.usedSessions)
  }

  ghost function DoExternal(w: World, st: Statement): World {
    w.(db := Apply(w.db, st).tables,
       usedSessions := if st.DoCreateSession? then w.usedSessions + {st.sid} else w.usedSessions)
  }

  /** Only revoked or deleted sessions are tombstoned. */
  predicate MayTombstone(w: World, sid: SessionId) {
    sid in w.usedSessions && (sid in w.db.sessions ==> w.db.sessions[sid].state.Revoked?)
  }

  function DoDecideCommit(w: World, user: UserId, cid: CallId, decision: Decision, io: Io, notice: int): World {
    var o := Schema.Decide(w.db, user, cid, decision);
    if !o.reply.Done? || io.LostBefore? then w
    else if io.LostAfter? then w.(db := o.tables, silent := w.silent + {cid})
    else w.(db := o.tables, notices := w.notices[notice := Notice(cid, w.db.calls[cid].session, user, decision)])
  }

  /** Under the service lock: refuse a tombstoned session, else hand the decision to the waiter without blocking. */
  function DoDecideNotify(w: World, notice: int): World
    requires notice in w.notices
  {
    var n := w.notices[notice];
    var rest := w.notices - {notice};
    if n.session in w.tombs then w.(notices := rest)
    else if n.call in w.waits && w.waits[n.call].user == n.user && w.waits[n.call].mail.None? then
      w.(notices := rest, acks := w.acks[n.call := n.decision],
         waits := w.waits[n.call := w.waits[n.call].(mail := Some(n.decision))])
    else
      w.(notices := rest, acks := w.acks[n.call := n.decision])
  }

  // ---------------------------------------------------------------------------
  // Turns

  predicate MayReserve(w: World, sid: SessionId) {
    sid !in w.tombs && sid !in w.turns
  }

  function DoReserve(w: World, sid: SessionId, user: UserId): World {
    w.(turns := w.turns[sid := Turn(user, Reserved, PerCommand, None)])
  }

  predicate MayBegin(w: World, sid: SessionId) {
    sid in w.turns && w.turns[sid].phase.Reserved?
  }

  function DoBegin(w: World, sid: SessionId, io: Io): World
    requires MayBegin(w, sid)
  {
    var o := BeginTurn(w.db, w.turns[sid].user, sid);
    var phase := if io.Ok? && o.reply.Done? then Begun else Ending;
    w.(db := if io.Applied() then o.tables else w.db, turns := w.turns[sid := w.turns[sid].(phase := phase)])
  }

  /** The session is read again after the turn began; the mode used from here on is this one. */
  predicate MayReread(w: World, sid: SessionId) {
    sid in w.turns && w.turns[sid].phase.Begun?
  }

  function DoReread(w: World, sid: SessionId, io: Io): World
    requires MayReread(w, sid)
  {
    var turn := w.turns[sid];
    if io.Ok? && SessionVisible(w.db, turn.user, sid) then
      w.(turns := w.turns[sid := turn.(phase := Active, mode := w.db.sessions[sid].mode)])
    else
      w.(turns := w.turns[sid := turn.(phase := Ending)])
  }

  /** Writing the state that ends a turn; possible once no invocation is inside the turn's gate. */
  predicate MaySettle(w: World, sid: SessionId, state: SessionState) {
    sid in w.turns && w.turns[sid].current.None? && Quiet(state)
  }

  function DoSettle(w: World, sid: SessionId, state: SessionState, io: Io): World
    requires MaySettle(w, sid, state)
  {
    var o := SetState(w.db, w.turns[sid].user, sid, state);
    w.(db := if io.Applied() then o.tables else w.db, turns := w.turns[sid := w.turns[sid].(phase := Ending)])
  }

  predicate MayRelease(w: World, sid: SessionId) {
    && sid in w.turns && w.turns[sid].current.None?
    && (w.turns[sid].phase.Reserved? || w.turns[sid].phase.Ending? || sid in w.tombs)
  }

  function DoRelease(w: World, sid: SessionId): World {
    w.(turns := w.turns - {sid},
       waits := map c | c in w.waits && w.waits[c].session != sid :: w.waits[c])
  }

  /** A tool callback enters the turn's gate and picks a fresh call id. */
  predicate MayInvoke(w: World, sid: SessionId, cid: CallId) {
    sid in w.turns && w.turns[sid].phase.Active? && w.turns[sid].current.None? && cid !in w.usedCalls
  }

  function DoInvoke(w: World, sid: SessionId, cid: CallId): World
    requires MayInvoke(w, sid, cid)
  {
    w.(turns := w.turns[sid := w.turns[sid].(current := Some(cid))],
       invokes := w.invokes[cid := Invocation(sid, w.turns[sid].user, Create(w.turns[sid].mode.FullAccess?))],
       usedCalls := w.usedCalls + {cid})
  }

  // ---------------------------------------------------------------------------
  // One invocation

  /** What one advance of an invocation does: new tables and program counter, and the rest of its own state. */
  datatype Move = Move(db: Tables, pc: Pc, wait: Option<Wait>, mode: ApprovalMode, event: Option<Event>)

  const FAIL := Finish(Failed, FailUpdate(0))

  function AfterAbortAttempt(attempt: nat): Pc {
    if attempt == 0 then AbortUpdate(1) else Leave(None)
  }

  function AfterFailAttempt(attempt: nat): FinishPc {
    if attempt == 0 then FailUpdate(1) else Look
  }

  function AfterLeaving(result: Option<Decision>): Pc {
    match result
    case None => FAIL
    case Some(d) => if d.Deny? then Finish(Denied, Write(0)) else Start(d)
  }

  /** The select and the blocking send are the only places an invocation can be held up. */
  predicate CanMove(w: World, cid: CallId, arm: bool) {
    && cid in w.invokes && w.invokes[cid].session in w.turns
    && match w.invokes[cid].pc
       case Deliver(_) => cid in w.waits && w.waits[cid].mail.None?
       case Select => cid in w.waits && (arm ==> w.waits[cid].mail.Some?)
       case Return => false
       case _ => true
  }

  function LookupCall(w: World, user: UserId, cid: CallId, io: Io): Option<Call> {
    if io.Ok? && CallVisible(w.db, user, cid) then Some(w.db.calls[cid]) else None
  }

  function After(db: Tables, o: Outcome, io: Io): Tables {
    if io.Applied() then o.tables else db
  }

  /** The invocation's own state before a move. */
  function Still(w: World, cid: CallId): Move
    requires cid in w.invokes && w.invokes[cid].session in w.turns
  {
    Move(w.db, w.invokes[cid].pc, if cid in w.waits then Some(w.waits[cid]) else None,
         w.turns[w.invokes[cid].session].mode, None)
  }

  function MoveOf(w: World, cid: CallId, io: Io, arm: bool, text: string, exit: int, now: Time): Move
    requires CanMove(w, cid, arm)
  {
    match w.invokes[cid].pc
    case Create(_) => CreateMove(w, cid, io)
    case Register | Reconcile | Unregister | Deliver(_) => RegisterMove(w, cid, io, arm)
    case MarkWaiting | MarkRunning(_) => MarkMove(w, cid, io)
    case Select | Confirm(_) | Leave(_) => SelectMove(w, cid, io, arm)
    case AbortUpdate(_) | AbortLookup(_, _) => AbortMove(w, cid, io, arm, now)
    case Start(_) => StartMove(w, cid, io)
    case CheckDevice | Execute | Executing | Finished(_, _, _) => ExecMove(w, cid, io, arm)
    case Finish(_, at) =>
      if at.FailUpdate? || at.FailLookup? || at.Look? then FailMove(w, cid, io, arm, text, now)
      else WriteMove(w, cid, io, text, exit, now)
    case Return => Still(w, cid)
  }

  function CreateMove(w: World, cid: CallId, io: Io): Move
    requires cid in w.invokes && w.invokes[cid].session in w.turns && w.invokes[cid].pc.Create?
  {
    var v := w.invokes[cid];
    var o := CreateCall(w.db, v.user, cid, v.session, if v.pc.full then Started else Pending);
    var made := io.Ok? && o.reply.Done?;
    Still(w, cid).(db := After(w.db, o, io),
                   pc := if !made then Return else if v.pc.full then CheckDevice else Register)
  }

  function RegisterMove(w: World, cid: CallId, io: Io, arm: bool): Move
    requires CanMove(w, cid, arm)
    requires var pc := w.invokes[cid].pc; pc.Register? || pc.Reconcile? || pc.Unregister? || pc.Deliver?
  {
    var v := w.invokes[cid];
    match v.pc
    case Register =>
      if arm || v.session in w.tombs then Still(w, cid).(pc := FAIL)
      else Still(w, cid).(pc := Reconcile, wait := Some(Wait(v.session, v.user, None)))
    case Reconcile =>
      var row := LookupCall(w, v.user, cid, io);
      Still(w, cid).(pc := if row.None? then Unregister
                           else if row.value.decision.Some? then Deliver(row.value.decision.value) else MarkWaiting)
    case Unregister => Still(w, cid).(pc := FAIL, wait := None)
    case Deliver(d) => Still(w, cid).(pc := MarkWaiting, wait := Some(w.waits[cid].(mail := Some(d))))
  }

  function MarkMove(w: World, cid: CallId, io: Io): Move
    requires cid in w.invokes && w.invokes[cid].session in w.turns
    requires var pc := w.invokes[cid].pc; pc.MarkWaiting? || pc.MarkRunning?
  {
    var v := w.invokes[cid];
    var o := SetState(w.db, v.user, v.session, if v.pc.MarkWaiting? then WaitingApproval else Running);
    var marked := io.Ok? && o.reply.Done?;
    Still(w, cid).(db := After(w.db, o, io),
                   pc := if v.pc.MarkWaiting? then (if marked then Select else AbortUpdate(0))
                         else Leave(if marked then Some(v.pc.d) else None))
  }

  function SelectMove(w: World, cid: CallId, io: Io, arm: bool): Move
    requires CanMove(w, cid, arm)
    requires var pc := w.invokes[cid].pc; pc.Select? || pc.Confirm? || pc.Leave?
  {
    var v := w.invokes[cid];
    match v.pc
    case Select =>
      if arm then Still(w, cid).(pc := Confirm(w.waits[cid].mail.value), wait := Some(w.waits[cid].(mail := None)))
      else Still(w, cid).(pc := AbortUpdate(0))
    case Confirm(d) =>
      var row := LookupCall(w, v.user, cid, io);
      Still(w, cid).(pc := if row.Some? && row.value.status.Pending? && row.value.decision == Some(d)
                           then MarkRunning(d) else Leave(None))
    case Leave(result) => Still(w, cid).(pc := AfterLeaving(result), wait := None)
  }

  /** The abort contends with a decision in the database; when it loses, the recorded decision is taken up. */
  function AbortMove(w: World, cid: CallId, io: Io, arm: bool, now: Time): Move
    requires cid in w.invokes && w.invokes[cid].session in w.turns
    requires var pc := w.invokes[cid].pc; pc.AbortUpdate? || pc.AbortLookup?
  {
    var v := w.invokes[cid];
    match v.pc
    case AbortUpdate(attempt) =>
      var o := FailPending(w.db, v.user, cid, "approval timed out or was canceled", now);
      // A lost answer may surface as a failed statement or as an unreadable row count; the latter goes on to the lookup.
      Still(w, cid).(db := After(w.db, o, io),
                     pc := if io.Ok? || (io.LostAfter? && arm) then AbortLookup(attempt, io.Ok? && o.reply.Done?)
                           else AfterAbortAttempt(attempt))
    case AbortLookup(attempt, hit) =>
      var row := LookupCall(w, v.user, cid, io);
      Still(w, cid).(pc := if row.None? then AfterAbortAttempt(attempt)
                           else if !hit && row.value.status.Pending? then Leave(row.value.decision)
                           else Leave(None))
  }

  function StartMove(w: World, cid: CallId, io: Io): Move
    requires cid in w.invokes && w.invokes[cid].session in w.turns && w.invokes[cid].pc.Start?
  {
    var v := w.invokes[cid];
    var o := StartCall(w.db, v.user, cid);
    var still := Still(w, cid).(db := After(w.db, o, io));
    if io.Ok? && o.reply.Done? then
      still.(pc := CheckDevice, mode := if v.pc.d.ApproveSession? then FullAccess else still.mode)
    else
      still.(pc := FAIL)
  }

  function ExecMove(w: World, cid: CallId, io: Io, arm: bool): Move
    requires cid in w.invokes && w.invokes[cid].session in w.turns
    requires var pc := w.invokes[cid].pc; pc.CheckDevice? || pc.Execute? || pc.Executing? || pc.Finished?
  {
    var v := w.invokes[cid];
    match v.pc
    case CheckDevice =>
      var owned := v.session in w.db.sessions && DeviceOwned(w.db, v.user, w.db.sessions[v.session].device);
      Still(w, cid).(pc := if io.Ok? && owned && v.session !in w.tombs && arm then Execute else FAIL)
    case Execute =>
      if v.session in w.tombs || !arm then Still(w, cid).(pc := FAIL)
      else Still(w, cid).(pc := Executing, event := Some(ExecReached(cid)))
    case Executing => Still(w, cid).(pc := if arm then Finish(Completed, Write(0)) else FAIL)
    case Finished(want, status, ok) =>
      // A completed call is announced as such; every other outcome is announced with the status handed back.
      Still(w, cid).(pc := Return,
                     event := if v.session in w.tombs then None
                              else if want.Completed? && ok then Some(ToolCompleted(cid, Completed))
                              else if status.Some? then Some(ToolCompleted(cid, status.value)) else None)
  }

  /** Finishing as failed starts by failing a row that is still pending and undecided. */
  function FailMove(w: World, cid: CallId, io: Io, arm: bool, text: string, now: Time): Move
    requires cid in w.invokes && w.invokes[cid].session in w.turns && w.invokes[cid].pc.Finish?
    requires var at := w.invokes[cid].pc.at; at.FailUpdate? || at.FailLookup? || at.Look?
  {
    var v := w.invokes[cid];
    var want := v.pc.want;
    match v.pc.at
    case FailUpdate(attempt) =>
      var o := FailPending(w.db, v.user, cid, text, now);
      Still(w, cid).(db := After(w.db, o, io),
                     pc := if (io.Ok? && !o.reply.Invalid?) || (io.LostAfter? && arm)
                           then Finish(want, FailLookup(attempt, io.Ok? && o.reply.Done?))
                           else Finish(want, AfterFailAttempt(attempt)))
    case FailLookup(attempt, hit) =>
      var row := LookupCall(w, v.user, cid, io);
      Still(w, cid).(pc := if row.None? then Finish(want, AfterFailAttempt(attempt))
                           else if hit then Finished(want, Some(Failed), true)
                           else if row.value.status.Terminal() then
                             Finished(want, Some(row.value.status), row.value.status.Failed?)
                           else if row.value.status.Started? || row.value.decision.Some? then Finish(want, Look)
                           else Finish(want, AfterFailAttempt(attempt)))
    case Look =>
      var row := LookupCall(w, v.user, cid, io);
      Still(w, cid).(pc := if row.Some? && row.value.status.Pending? && row.value.decision.None?
                           then Finished(want, None, false) else Finish(want, Write(0)))
  }

  /** Writing the wanted status, checking by lookup after a failure, and compensating with `failed`. */
  function WriteMove(w: World, cid: CallId, io: Io, text: string, exit: int, now: Time): Move
    requires cid in w.invokes && w.invokes[cid].session in w.turns && w.invokes[cid].pc.Finish?
    requires var at := w.invokes[cid].pc.at; at.Write? || at.Check? || at.Redo? || at.Recheck?
  {
    var v := w.invokes[cid];
    var want := v.pc.want;
    match v.pc.at
    case Write(attempt) =>
      var o := FinishCall(w.db, v.user, cid, want, if want.Completed? then Some(exit) else None, Some(text), now);
      Still(w, cid).(db := After(w.db, o, io),
                     pc := if io.Ok? && o.reply.Done? then Finished(want, Some(want), true)
                           else Finish(want, Check(attempt)))
    case Check(attempt) =>
      var row := LookupCall(w, v.user, cid, io);
      Still(w, cid).(pc := if row.Some? && row.value.status.Terminal() then
                             Finished(want, Some(row.value.status), row.value.status == want)
                           else if attempt == 0 then Finish(want, Write(1))
                           else if want.Failed? then Finished(want, None, false)
                           else Finish(want, Redo(0)))
    case Redo(attempt) =>
      var o := FinishCall(w.db, v.user, cid, Failed, None, Some("tool finalization persistence failed"), now);
      Still(w, cid).(db := After(w.db, o, io),
                     pc := if io.Ok? && o.reply.Done? then Finished(want, Some(Failed), false)
                           else Finish(want, Recheck(attempt)))
    case Recheck(attempt) =>
      var row := LookupCall(w, v.user, cid, io);
      Still(w, cid).(pc := if row.Some? && row.value.status.Terminal() then Finished(want, Some(row.value.status), false)
                           else if attempt == 0 then Finish(want, Redo(1)) else Finished(want, None, false))
  }

  /** Puts a move into the world; an invocation that returned leaves the turn's gate. */
  function DoAdvance(w: World, cid: CallId, m: Move): World
    requires cid in w.invokes && w.invokes[cid].session in w.turns
  {
    var v := w.invokes[cid];
    var turn := w.turns[v.session].(mode := m.mode);
    var waits := match m.wait
                 case None => w.waits - {cid}
                 case Some(x) => w.waits[cid := x];
    var events := match m.event
                  case None => w.events
                  case Some(e) => w.events + [e];
    if m.pc.Return? then
      w.(db := m.db, waits := waits, events := events, turns := w.turns[v.session := turn.(current := None)],
         invokes := w.invokes - {cid})
    else
      w.(db := m.db, waits := waits, events := events, turns := w.turns[v.session := turn],
         invokes := w.invokes[cid := v.(pc := m.pc)])
  }

  // ---------------------------------------------------------------------------
  // The step relation and its runs

  predicate Enabled(w: World, s: Step) {
    match s
    case External(st) => ExternalStatement(w, st)
    case Tombstone(sid) => MayTombstone(w, sid)
    case DecideCommit(_, _, _, _, notice) => notice !in w.notices
    case DecideNotify(notice) => notice in w.notices
    case Reserve(sid, _) => MayReserve(w, sid)
    case Begin(sid, _) => MayBegin(w, sid)
    case Reread(sid, _) => MayReread(w, sid)
    case Settle(sid, state, _) => MaySettle(w, sid, state)
    case Release(sid) => MayRelease(w, sid)
    case Invoke(sid, cid) => MayInvoke(w, sid, cid)
    case Advance(cid, _, arm, _, _, _) => CanMove(w, cid, arm)
  }

  ghost function Take(w: World, s: Step): World
    requires Enabled(w, s)
  {
    match s
    case External(st) => DoExternal(w, st)
    case Tombstone(sid) => w.(tombs := w.tombs + {sid})
    case DecideCommit(user, cid, decision, io, notice) => DoDecideCommit(w, user, cid, decision, io, notice)
    case DecideNotify(notice) => DoDecideNotify(w, notice)
    case Reserve(sid, user) => DoReserve(w, sid, user)
    case Begin(sid, io) => DoBegin(w, sid, io)
    case Reread(sid, io) => DoReread(w, sid, io)
    case Settle(sid, state, io) => DoSettle(w, sid, state, io)
    case Release(sid) => DoRelease(w, sid)
    case Invoke(sid, cid) => DoInvoke(w, sid, cid)
    case Advance(cid, io, arm, text, exit, now) => DoAdvance(w, cid, MoveOf(w, cid, io, arm, text, exit, now))
  }

  ghost predicate Run(ws: seq<World>, steps: seq<Step>) {
    && |ws| == |steps| + 1
    && Init(ws[0])
    && forall i :: 0 <= i < |steps| ==> Enabled(ws[i], steps[i]) && ws[i + 1] == Take(ws[i], steps[i])
  }
}
