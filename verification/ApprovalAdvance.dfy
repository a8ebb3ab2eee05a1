/** Every advance of an invocation keeps the invariant, whatever its database calls answer. */
module ApprovalAdvance {
  import opened Base
  import opened Schema
  import opened SchemaInvariant
  import opened Approval
  import opened ApprovalInvariant

  /** A statement of the invocation `c` on session `s` touches nothing but its own call and its own session's state. */
  ghost predicate DbMoved(t: Tables, t': Tables, s: SessionId, c: CallId) {
    && (forall k | k != c :: k in t.calls <==> k in t'.calls)
    && (forall k | k != c && k in t.calls :: t'.calls[k] == t.calls[k])
    && (c in t.calls ==> c in t'.calls && CallEvolves(t.calls[c], t'.calls[c]) && t'.calls[c].decision == t.calls[c].decision)
    && (c !in t.calls && c in t'.calls ==> t'.calls[c].decision.None?)
    && t'.sessions.Keys == t.sessions.Keys
    && (forall k | k in t.sessions :: t'.sessions[k] == t.sessions[k].(state := t'.sessions[k].state))
    && (forall k | k in t.sessions && k != s :: t'.sessions[k].state == t.sessions[k].state)
    && (s in t.sessions ==> t'.sessions[s].state.Revoked? == t.sessions[s].state.Revoked?)
  }

  /** Each statement an invocation runs is such a move, and keeps the tables consistent. */
  lemma CallStatementMoves(t: Tables, st: Statement, s: SessionId)
    requires st.DoCreateCall? || st.DoFailPending? || st.DoStart? || st.DoFinish?
    ensures DbMoved(t, Apply(t, st).tables, s, st.cid)
  {
  }

  lemma StateStatementMoves(t: Tables, user: UserId, s: SessionId, state: SessionState, c: CallId)
    requires state.Running? || state.WaitingApproval?
    ensures DbMoved(t, SetState(t, user, s, state).tables, s, c)
  {
  }

  /** The statement behind a move, if it has one. */
  function StatementOf(w: World, c: CallId, text: string, exit: int, now: Time): Option<Statement>
    requires c in w.invokes
  {
    var v := w.invokes[c];
    match v.pc
    case Create(full) => Some(DoCreateCall(v.user, c, v.session, if full then Started else Pending))
    case MarkWaiting => Some(DoSetState(v.user, v.session, WaitingApproval))
    case MarkRunning(_) => Some(DoSetState(v.user, v.session, Running))
    case AbortUpdate(_) => Some(DoFailPending(v.user, c, "approval timed out or was canceled", now))
    case Start(_) => Some(DoStart(v.user, c))
    case Finish(want, FailUpdate(_)) => Some(DoFailPending(v.user, c, text, now))
    case Finish(want, Write(_)) =>
      Some(DoFinish(v.user, c, want, if want.Completed? then Some(exit) else None, Some(text), now))
    case Finish(want, Redo(_)) =>
      Some(DoFinish(v.user, c, Failed, None, Some("tool finalization persistence failed"), now))
    case _ => None
  }

  /** An invocation changes the tables only by its statement, and only when the call took effect. */
  lemma MoveIsStatement(w: World, c: CallId, io: Io, arm: bool, text: string, exit: int, now: Time)
    requires CanMove(w, c, arm)
    ensures var st, db := StatementOf(w, c, text, exit, now), MoveOf(w, c, io, arm, text, exit, now).db;
            if st.Some? && io.Applied() then db == Apply(w.db, st.value).tables else db == w.db
  {
    if w.invokes[c].pc.Finish? {
      FinishMoveIsStatement(w, c, io, arm, text, exit, now);
    } else {
      EarlierMoveIsStatement(w, c, io, arm, text, exit, now);
    }
  }

  lemma FinishMoveIsStatement(w: World, c: CallId, io: Io, arm: bool, text: string, exit: int, now: Time)
    requires CanMove(w, c, arm) && w.invokes[c].pc.Finish?
    ensures var st, db := StatementOf(w, c, text, exit, now), MoveOf(w, c, io, arm, text, exit, now).db;
            if st.Some? && io.Applied() then db == Apply(w.db, st.value).tables else db == w.db
  {
  }

  lemma EarlierMoveIsStatement(w: World, c: CallId, io: Io, arm: bool, text: string, exit: int, now: Time)
    requires CanMove(w, c, arm) && !w.invokes[c].pc.Finish?
    ensures var st, db := StatementOf(w, c, text, exit, now), MoveOf(w, c, io, arm, text, exit, now).db;
            if st.Some? && io.Applied() then db == Apply(w.db, st.value).tables else db == w.db
  {
  }

  lemma MovesDb(w: World, c: CallId, io: Io, arm: bool, text: string, exit: int, now: Time)
    requires CanMove(w, c, arm)
    ensures DbMoved(w.db, MoveOf(w, c, io, arm, text, exit, now).db, w.invokes[c].session, c)
  {
    var v := w.invokes[c];
    var st := StatementOf(w, c, text, exit, now);
    MoveIsStatement(w, c, io, arm, text, exit, now);
    if st.Some? {
      if st.value.DoSetState? {
        StateStatementMoves(w.db, v.user, v.session, st.value.state, c);
      } else {
        CallStatementMoves(w.db, st.value, v.session);
      }
    }
  }

  /** What a move has to establish for its own invocation. */
  ghost predicate OwnFits(w: World, c: CallId, m: Move)
    requires c in w.invokes && w.invokes[c].session in w.turns
  {
    var v := w.invokes[c].(pc := m.pc);
    var turn := w.turns[v.session].(mode := m.mode);
    && v.session in m.db.sessions && SessionFits(m.db.sessions[v.session], turn)
    && (m.pc.Return? ==> m.wait.None?)
    && (!m.pc.Return? ==> && CallFits(m.db, c, v, m.mode) && WaitFits(m.db, c, v, m.wait)
                          && NotLost(m.db, c, v, m.wait, Elsewhere(w, c, v.session)))
    && !m.pc.Create?
    && (m.event.Some? ==> m.event.value.call == c && RowBacks(m.db, m.event.value))
  }

  ghost predicate MoveFits(w: World, c: CallId, m: Move)
    requires c in w.invokes && w.invokes[c].session in w.turns
  {
    DbMoved(w.db, m.db, w.invokes[c].session, c) && OwnFits(w, c, m)
  }

  predicate RowBacks(db: Tables, e: Event) {
    && e.call in db.calls
    && match e
       case ExecReached(c) => Approved(db.calls[c])
       case ToolCompleted(c, status) => status.Terminal() && db.calls[c].status == status
  }

  // ---------------------------------------------------------------------------
  // A fitting move keeps the invariant

  lemma AdvanceKeepsTurn(w: World, c: CallId, m: Move, s: SessionId)
    requires c in w.invokes && Linked(w, c) && MoveFits(w, c, m) && s in w.turns && TurnFits(w, s)
    requires s != w.invokes[c].session ==> w.turns[s].current != Some(c)
    ensures TurnFits(DoAdvance(w, c, m), s)
  {
  }

  lemma AdvanceKeepsOther(w: World, c: CallId, m: Move, k: CallId)
    requires c in w.invokes && Linked(w, c) && MoveFits(w, c, m)
    requires k in w.invokes && k != c && InvokeFits(w, k)
    ensures InvokeFits(DoAdvance(w, c, m), k)
  {
    var w' := DoAdvance(w, c, m);
    assert w.invokes[k].session != w.invokes[c].session;
    assert WaitOf(w', k) == WaitOf(w, k);
    assert Heard(w', k) == Heard(w, k);
  }

  lemma AdvanceKeepsOwn(w: World, c: CallId, m: Move)
    requires c in w.invokes && Linked(w, c) && MoveFits(w, c, m) && !m.pc.Return?
    ensures InvokeFits(DoAdvance(w, c, m), c)
  {
    var w' := DoAdvance(w, c, m);
    assert WaitOf(w', c) == m.wait;
    assert Heard(w', c) == Heard(w, c);
  }

  lemma AdvanceKeepsNames(w: World, c: CallId, m: Move)
    requires c in w.invokes && Linked(w, c) && MoveFits(w, c, m) && Names(w)
    ensures Names(DoAdvance(w, c, m))
  {
    assert Creating(DoAdvance(w, c, m)) == Creating(w) - {c};
  }

  lemma AdvanceKeepsDecisions(w: World, c: CallId, m: Move)
    requires c in w.invokes && Linked(w, c) && MoveFits(w, c, m) && Names(w) && DecidedOnce(w)
    requires c !in w.db.calls ==> w.invokes[c].pc.Create?
    ensures DecidedOnce(DoAdvance(w, c, m))
  {
    var w' := DoAdvance(w, c, m);
    assert forall k :: Heard(w', k) == Heard(w, k);
  }

  lemma AdvanceKeepsNotice(w: World, c: CallId, m: Move, n: int)
    requires c in w.invokes && Linked(w, c) && MoveFits(w, c, m) && n in w.notices && NoticeFits(w, n) && Names(w)
    requires c !in w.db.calls ==> w.invokes[c].pc.Create?
    ensures NoticeFits(DoAdvance(w, c, m), n)
  {
  }

  lemma AdvanceKeepsEvent(w: World, c: CallId, m: Move, e: Event)
    requires c in w.invokes && Linked(w, c) && MoveFits(w, c, m) && EventFits(w, e)
    requires c !in w.db.calls ==> w.invokes[c].pc.Create?
    ensures EventFits(DoAdvance(w, c, m), e)
  {
    assert Creating(DoAdvance(w, c, m)) == Creating(w) - {c};
  }

  lemma AdvanceAddsEvent(w: World, c: CallId, m: Move)
    requires c in w.invokes && Linked(w, c) && MoveFits(w, c, m) && m.event.Some? && c in w.usedCalls
    ensures EventFits(DoAdvance(w, c, m), m.event.value)
  {
    assert Creating(DoAdvance(w, c, m)) == Creating(w) - {c};
  }

  lemma AdvanceKeepsShape(w: World, c: CallId, m: Move)
    requires Shape(w) && c in w.invokes && w.invokes[c].session in w.turns && MoveFits(w, c, m)
    ensures Shape(DoAdvance(w, c, m))
  {
    var w' := DoAdvance(w, c, m);
    assert InvokeFits(w, c);
    AdvanceKeepsNames(w, c, m);
    AdvanceKeepsDecisions(w, c, m);
    forall s | s in w'.turns ensures TurnFits(w', s) {
      assert TurnFits(w, s);
      AdvanceKeepsTurn(w, c, m, s);
    }
    forall k | k in w'.invokes ensures InvokeFits(w', k) {
      assert InvokeFits(w, k);
      if k == c {
        AdvanceKeepsOwn(w, c, m);
      } else {
        AdvanceKeepsOther(w, c, m, k);
      }
    }
    forall n | n in w'.notices ensures NoticeFits(w', n) {
      assert NoticeFits(w, n);
      AdvanceKeepsNotice(w, c, m, n);
    }
    forall e | e in w'.events ensures EventFits(w', e) {
      if e in w.events {
        AdvanceKeepsEvent(w, c, m, e);
      } else {
        AdvanceAddsEvent(w, c, m);
      }
    }
  }

  // ---------------------------------------------------------------------------
  // Every move fits

  /** What a move may rely on. */
  ghost predicate Ready(w: World, c: CallId) {
    && c in w.invokes && InvokeFits(w, c)
    && SessionFits(w.db.sessions[w.invokes[c].session], w.turns[w.invokes[c].session])
    && (c in w.db.calls ==>
          && RowAgrees(w.db.calls[c])
          && (w.db.sessions[w.invokes[c].session].state.Revoked? && w.db.calls[c].session == w.invokes[c].session
              ==> w.db.calls[c].status.Terminal()))
  }

  lemma CreateMoveFits(w: World, c: CallId, io: Io)
    requires Ready(w, c) && w.invokes[c].pc.Create?
    ensures OwnFits(w, c, CreateMove(w, c, io))
  {
  }

  lemma RegisterMoveFits(w: World, c: CallId, io: Io, arm: bool)
    requires Ready(w, c) && CanMove(w, c, arm)
    requires var pc := w.invokes[c].pc; pc.Register? || pc.Reconcile? || pc.Unregister? || pc.Deliver?
    ensures OwnFits(w, c, RegisterMove(w, c, io, arm))
  {
  }

  lemma MarkMoveFits(w: World, c: CallId, io: Io)
    requires Ready(w, c)
    requires var pc := w.invokes[c].pc; pc.MarkWaiting? || pc.MarkRunning?
    ensures OwnFits(w, c, MarkMove(w, c, io))
  {
  }

  lemma SelectMoveFits(w: World, c: CallId, io: Io, arm: bool)
    requires Ready(w, c) && CanMove(w, c, arm)
    requires var pc := w.invokes[c].pc; pc.Select? || pc.Confirm? || pc.Leave?
    ensures OwnFits(w, c, SelectMove(w, c, io, arm))
  {
  }

  lemma AbortMoveFits(w: World, c: CallId, io: Io, arm: bool, now: Time)
    requires Ready(w, c) && w.invokes[c].pc.AbortUpdate?
    ensures OwnFits(w, c, AbortMove(w, c, io, arm, now))
  {
  }

  lemma AbortLookupFits(w: World, c: CallId, io: Io, arm: bool, now: Time)
    requires Ready(w, c) && w.invokes[c].pc.AbortLookup?
    ensures OwnFits(w, c, AbortMove(w, c, io, arm, now))
  {
  }

  lemma StartMoveFits(w: World, c: CallId, io: Io)
    requires Ready(w, c) && w.invokes[c].pc.Start?
    ensures OwnFits(w, c, StartMove(w, c, io))
  {
  }

  lemma ExecMoveFits(w: World, c: CallId, io: Io, arm: bool)
    requires Ready(w, c)
    requires var pc := w.invokes[c].pc; pc.CheckDevice? || pc.Execute? || pc.Executing? || pc.Finished?
    ensures OwnFits(w, c, ExecMove(w, c, io, arm))
  {
  }

  lemma FailUpdateFits(w: World, c: CallId, io: Io, arm: bool, text: string, now: Time)
    requires Ready(w, c) && w.invokes[c].pc.Finish? && w.invokes[c].pc.at.FailUpdate?
    ensures OwnFits(w, c, FailMove(w, c, io, arm, text, now))
  {
  }

  lemma FailLookupFits(w: World, c: CallId, io: Io, arm: bool, text: string, now: Time)
    requires Ready(w, c) && w.invokes[c].pc.Finish? && (w.invokes[c].pc.at.FailLookup? || w.invokes[c].pc.at.Look?)
    ensures OwnFits(w, c, FailMove(w, c, io, arm, text, now))
  {
  }

  lemma RedoMoveFits(w: World, c: CallId, io: Io, text: string, exit: int, now: Time)
    requires Ready(w, c) && w.invokes[c].pc.Finish? && w.invokes[c].pc.at.Redo?
    ensures OwnFits(w, c, WriteMove(w, c, io, text, exit, now))
  {
  }

  lemma WriteMoveFits(w: World, c: CallId, io: Io, text: string, exit: int, now: Time)
    requires Ready(w, c) && w.invokes[c].pc.Finish? && w.invokes[c].pc.at.Write?
    ensures OwnFits(w, c, WriteMove(w, c, io, text, exit, now))
  {
  }

  lemma CheckMoveFits(w: World, c: CallId, io: Io, text: string, exit: int, now: Time)
    requires Ready(w, c) && w.invokes[c].pc.Finish? && (w.invokes[c].pc.at.Check? || w.invokes[c].pc.at.Recheck?)
    ensures OwnFits(w, c, WriteMove(w, c, io, text, exit, now))
  {
  }

  lemma EveryMoveFits(w: World, c: CallId, io: Io, arm: bool, text: string, exit: int, now: Time)
    requires Ready(w, c) && CanMove(w, c, arm)
    ensures OwnFits(w, c, MoveOf(w, c, io, arm, text, exit, now))
  {
    match w.invokes[c].pc
    case Create(_) => CreateMoveFits(w, c, io);
    case Register | Reconcile | Unregister | Deliver(_) => RegisterMoveFits(w, c, io, arm);
    case MarkWaiting | MarkRunning(_) => MarkMoveFits(w, c, io);
    case Select | Confirm(_) | Leave(_) => SelectMoveFits(w, c, io, arm);
    case AbortUpdate(_) => AbortMoveFits(w, c, io, arm, now);
    case AbortLookup(_, _) => AbortLookupFits(w, c, io, arm, now);
    case Start(_) => StartMoveFits(w, c, io);
    case CheckDevice | Execute | Executing | Finished(_, _, _) => ExecMoveFits(w, c, io, arm);
    case Finish(_, at) =>
      match at {
        case FailUpdate(_) => FailUpdateFits(w, c, io, arm, text, now);
        case FailLookup(_, _) | Look => FailLookupFits(w, c, io, arm, text, now);
        case Write(_) => WriteMoveFits(w, c, io, text, exit, now);
        case Redo(_) => RedoMoveFits(w, c, io, text, exit, now);
        case Check(_) | Recheck(_) => CheckMoveFits(w, c, io, text, exit, now);
      }
    case Return =>
  }

  lemma AdvanceKeepsInv(w: World, c: CallId, io: Io, arm: bool, text: string, exit: int, now: Time)
    requires Inv(w) && CanMove(w, c, arm)
    ensures Inv(DoAdvance(w, c, MoveOf(w, c, io, arm, text, exit, now)))
  {
    var m := MoveOf(w, c, io, arm, text, exit, now);
    assert InvokeFits(w, c) && TurnFits(w, w.invokes[c].session);
    assert Ready(w, c);
    MovesDb(w, c, io, arm, text, exit, now);
    EveryMoveFits(w, c, io, arm, text, exit, now);
    AdvanceKeepsShape(w, c, m);
    MoveIsStatement(w, c, io, arm, text, exit, now);
    var st := StatementOf(w, c, text, exit, now);
    if st.Some? {
      StatementKeepsConsistent(w.db, st.value);
    }
  }

  // ---------------------------------------------------------------------------
  // The invariant holds in every run

  lemma StepKeepsInv(w: World, s: Step)
    requires Inv(w) && Enabled(w, s)
    ensures Inv(Take(w, s))
  {
    match s
    case External(st) => ExternalKeepsInv(w, st);
    case Tombstone(sid) => TombstoneKeepsInv(w, sid);
    case DecideCommit(user, cid, decision, io, notice) => DecideCommitKeepsInv(w, user, cid, decision, io, notice);
    case DecideNotify(notice) => DecideNotifyKeepsInv(w, notice);
    case Reserve(sid, user) => ReserveKeepsInv(w, sid, user);
    case Begin(sid, io) => BeginKeepsInv(w, sid, io);
    case Reread(sid, io) => RereadKeepsInv(w, sid, io);
    case Settle(sid, state, io) => SettleKeepsInv(w, sid, state, io);
    case Release(sid) => ReleaseKeepsInv(w, sid);
    case Invoke(sid, cid) => InvokeKeepsInv(w, sid, cid);
    case Advance(cid, io, arm, text, exit, now) => AdvanceKeepsInv(w, cid, io, arm, text, exit, now);
  }

  lemma {:induction false} RunKeepsInv(ws: seq<World>, steps: seq<Step>, i: nat)
    requires Run(ws, steps) && i < |ws|
    ensures Inv(ws[i])
  {
    if i == 0 {
      InitHolds(ws[0]);
    } else {
      RunKeepsInv(ws, steps, i - 1);
      StepKeepsInv(ws[i - 1], steps[i - 1]);
    }
  }
}
