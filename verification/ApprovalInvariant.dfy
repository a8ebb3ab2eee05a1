/** The inductive invariant of the approval protocol, and the proof that every step keeps it. */
module ApprovalInvariant {
  import opened Base
  import opened Schema
  import opened SchemaInvariant
  import opened Approval

  // ---------------------------------------------------------------------------
  // What each program point knows about its own row

  /** The points between registering a waiter and removing it again. */
  predicate InWait(pc: Pc) {
    || pc.Reconcile? || pc.Unregister? || pc.Deliver? || pc.MarkWaiting? || pc.Select? || pc.Confirm? || pc.MarkRunning?
    || pc.AbortUpdate? || pc.AbortLookup? || pc.Leave?
  }

  /** `d` is on record for the row, which is still pending unless an unpair has failed it. */
  predicate Decided(row: Call, revoked: bool, d: Decision) {
    row.decision == Some(d) && (revoked || row.status.Pending?)
  }

  predicate Aborted(row: Call) {
    row.status.Failed? && row.decision.None?
  }

  /** The row got as far as `started`, and nobody denied it. */
  predicate Approved(row: Call) {
    !row.status.Pending? && !row.status.Denied? && row.decision != Some(Deny)
  }

  predicate FinishFits(row: Call, revoked: bool, want: CallStatus, at: FinishPc) {
    && (at.FailUpdate? || at.FailLookup? || at.Look? ==> want.Failed?)
    && (at.Redo? || at.Recheck? ==> !want.Failed?)
    && (at.FailLookup? && at.hit ==> row.status.Failed?)
    && (revoked || match want
                   case Failed => row.status.Pending? || row.status.Started? || row.status.Failed?
                   case Denied => Decided(row, false, Deny) || row.status.Denied? || row.status.Failed?
                   case Completed => row.status.Started? || row.status.Completed? || row.status.Failed?
                   case _ => false)
    && want.Terminal()
  }

  predicate RowFits(row: Call, revoked: bool, pc: Pc) {
    match pc
    case Register | Reconcile | Unregister | MarkWaiting | Select => revoked || row.status.Pending?
    case Deliver(d) => Decided(row, revoked, d)
    case Confirm(d) => Decided(row, revoked, d)
    case MarkRunning(d) => Decided(row, revoked, d)
    case Start(d) => d.Approves() && Decided(row, revoked, d)
    case AbortUpdate(_) => revoked || row.status.Pending? || Aborted(row)
    case AbortLookup(_, hit) => if hit then Aborted(row) else revoked || row.status.Pending? || Aborted(row)
    case Leave(None) => revoked || row.status.Pending? || Aborted(row)
    case Leave(Some(d)) => Decided(row, revoked, d)
    case CheckDevice | Execute | Executing => Approved(row) && (revoked || row.status.Started?)
    case Finish(want, at) => FinishFits(row, revoked, want, at)
    case Finished(want, status, ok) =>
      && (ok ==> status == Some(want))
      && (status.Some? ==> status.value.Terminal() && row.status == status.value)
    case Create(_) | Return => true
  }

  // ---------------------------------------------------------------------------
  // The invariant

  /** While a turn runs, its session stays as the turn found it, unless an unpair revokes it. */
  predicate SessionFits(row: Session, turn: Turn) {
    && row.user == turn.user
    && (row.state.Revoked?
        || (&& (row.state.Running? || row.state.WaitingApproval?) && row.archivedAt.None?
            && (turn.phase.Active? && turn.mode.FullAccess? ==> row.mode.FullAccess?)))
  }

  predicate TurnFits(w: World, sid: SessionId)
    requires sid in w.turns
  {
    var turn := w.turns[sid];
    && (turn.phase.Begun? || turn.phase.Active? ==> sid in w.db.sessions && SessionFits(w.db.sessions[sid], turn))
    && (turn.current.Some? ==> && turn.phase.Active? && turn.current.value in w.invokes
                               && w.invokes[turn.current.value].session == sid)
  }

  /** The invocation is the one inside its turn's gate, and its turn is running. */
  predicate Linked(w: World, c: CallId)
    requires c in w.invokes
  {
    var v := w.invokes[c];
    && v.session in w.turns && w.turns[v.session].current == Some(c) && w.turns[v.session].phase.Active?
    && w.turns[v.session].user == v.user && v.session in w.db.sessions
  }

  ghost predicate Heard(w: World, c: CallId) {
    exists n :: n in w.notices && w.notices[n].call == c
  }

  function WaitOf(w: World, c: CallId): Option<Wait> {
    if c in w.waits then Some(w.waits[c]) else None
  }

  predicate WaitFits(db: Tables, c: CallId, v: Invocation, wait: Option<Wait>) {
    && (wait.Some? <==> InWait(v.pc))
    && (wait.Some? ==>
          && wait.value.session == v.session && wait.value.user == v.user
          && (wait.value.mail.Some? ==> c in db.calls && db.calls[c].decision == wait.value.mail))
  }

  /** A recorded decision has reached the waiter's channel, is on its way, or its caller was told it failed. */
  predicate NotLost(db: Tables, c: CallId, v: Invocation, wait: Option<Wait>, elsewhere: bool) {
    (v.pc.MarkWaiting? || v.pc.Select?) && c in db.calls && db.calls[c].decision.Some?
    && v.session in db.sessions && !db.sessions[v.session].state.Revoked? ==>
      elsewhere || (wait.Some? && wait.value.mail == db.calls[c].decision)
  }

  ghost predicate Elsewhere(w: World, c: CallId, session: SessionId) {
    session in w.tombs || Heard(w, c) || c in w.silent
  }

  predicate CallFits(db: Tables, c: CallId, v: Invocation, mode: ApprovalMode) {
    && !v.pc.Return?
    && (v.pc.Create? ==> c !in db.calls && (v.pc.full ==> mode.FullAccess?))
    && (!v.pc.Create? ==>
          && c in db.calls && db.calls[c].session == v.session && v.session in db.sessions
          && RowFits(db.calls[c], db.sessions[v.session].state.Revoked?, v.pc)
          && (db.calls[c].decision == Some(ApproveSession) && !db.sessions[v.session].state.Revoked?
              ==> db.sessions[v.session].mode.FullAccess?))
  }

  ghost predicate InvokeFits(w: World, c: CallId)
    requires c in w.invokes
  {
    var v := w.invokes[c];
    && Linked(w, c)
    && CallFits(w.db, c, v, w.turns[v.session].mode)
    && WaitFits(w.db, c, v, WaitOf(w, c))
    && NotLost(w.db, c, v, WaitOf(w, c), Elsewhere(w, c, v.session))
  }

  predicate NoticeFits(w: World, n: int)
    requires n in w.notices
  {
    var m := w.notices[n];
    && m.call in w.usedCalls && m.session in w.usedSessions && m.call !in w.silent && m.call !in w.acks
    && (m.call in w.db.calls ==> && w.db.calls[m.call].decision == Some(m.decision)
                                 && w.db.calls[m.call].session == m.session)
    && (m.session in w.db.sessions ==> w.db.sessions[m.session].user == m.user)
  }

  predicate EventFits(w: World, e: Event) {
    && e.call in w.usedCalls && e.call !in Creating(w)
    && match e
       case ExecReached(c) => c in w.db.calls ==> Approved(w.db.calls[c])
       case ToolCompleted(c, status) =>
         status.Terminal() && (c in w.db.calls ==> w.db.calls[c].status == status)
  }

  /** Calls whose row is still to be created. */
  function Creating(w: World): set<CallId> {
    set c | c in w.invokes && w.invokes[c].pc.Create?
  }

  ghost predicate Names(w: World) {
    && (forall c <- w.db.calls :: c in w.usedCalls)
    && (forall s <- w.db.sessions :: s in w.usedSessions)
    && (forall c <- w.invokes :: c in w.usedCalls)
    && (forall c <- w.waits :: c in w.invokes)
    && w.silent <= w.usedCalls
    && (forall c <- w.acks :: c in w.usedCalls && c !in w.silent && c !in Creating(w))
    && w.silent !! Creating(w)
    && (forall n <- w.notices :: w.notices[n].call !in Creating(w))
    && (forall s <- w.tombs :: s in w.usedSessions && (s in w.db.sessions ==> w.db.sessions[s].state.Revoked?))
  }

  /** Each call is decided at most once: an undecided row has no decision under way, and no two are under way for one call. */
  ghost predicate DecidedOnce(w: World) {
    && (forall c <- w.db.calls :: w.db.calls[c].decision.None? ==> c !in w.silent && c !in w.acks && !Heard(w, c))
    && (forall c <- w.acks :: c in w.db.calls ==> w.db.calls[c].decision == Some(w.acks[c]))
    && (forall m <- w.notices, n <- w.notices :: w.notices[m].call == w.notices[n].call ==> m == n)
  }

  ghost predicate Inv(w: World) {
    Consistent(w.db) && Shape(w)
  }

  ghost predicate Shape(w: World) {
    && Names(w)
    && DecidedOnce(w)
    && (forall sid <- w.turns :: TurnFits(w, sid))
    && (forall c <- w.invokes :: InvokeFits(w, c))
    && (forall n <- w.notices :: NoticeFits(w, n))
    && (forall e <- w.events :: EventFits(w, e))
  }

  lemma InitHolds(w: World)
    requires Init(w)
    ensures Inv(w)
  {
  }

  // ---------------------------------------------------------------------------
  // What other goroutines' statements leave alone

  predicate SessionHeld(a: Session, b: Session) {
    && b.user == a.user && b.device == a.device
    && (b.state.Revoked? || (b.state == a.state && b.archivedAt == a.archivedAt && (b.mode == a.mode || b.mode.FullAccess?)))
  }

  /** A row seen across somebody else's statement: the same, or decided meanwhile. */
  predicate CallHeld(a: Call, b: Call) {
    b == a || (a.status.Pending? && a.decision.None? && b == a.(decision := b.decision))
  }

  predicate OthersMayRun(st: Statement) {
    || st.DoRegister? || st.DoCreateCode? || st.DoClaim? || st.DoUnpair? || st.DoSetMode? || st.DoSetArchived?
    || st.DoDeleteSession? || st.DoCreateSession? || st.DoDecide?
  }

  lemma OthersHoldSession(t: Tables, st: Statement, sid: SessionId)
    requires OthersMayRun(st) && sid in t.sessions && !Quiet(t.sessions[sid].state)
    ensures sid in Apply(t, st).tables.sessions
    ensures SessionHeld(t.sessions[sid], Apply(t, st).tables.sessions[sid])
  {
  }

  lemma OthersHoldCall(t: Tables, st: Statement, cid: CallId)
    requires Consistent(t) && OthersMayRun(st) && cid in t.calls && !Quiet(t.sessions[t.calls[cid].session].state)
    ensures var t' := Apply(t, st).tables;
            && cid in t'.calls && t'.calls[cid].session in t'.sessions
            && (t'.sessions[t'.calls[cid].session].state.Revoked? || CallHeld(t.calls[cid], t'.calls[cid]))
            && (t'.calls[cid].decision == Some(ApproveSession) && t.calls[cid].decision.None?
                ==> t'.sessions[t'.calls[cid].session].mode.FullAccess?)
  {
    StatementEvolves(t, st);
    StatementKeepsConsistent(t, st);
    OthersHoldSession(t, st, t.calls[cid].session);
  }

  lemma RowStillFits(a: Call, b: Call, was: bool, gone: bool, pc: Pc)
    requires RowFits(a, was, pc) && CallEvolves(a, b)
    requires was ==> gone
    requires gone || CallHeld(a, b)
    ensures RowFits(b, gone, pc)
  {
  }

  // ---------------------------------------------------------------------------
  // Statements of the rest of the product, decisions included

  /** `w'` is `w` after somebody else's statement `st`, up to the bookkeeping of decisions. */
  ghost predicate OthersRan(w: World, st: Statement, w': World) {
    && OthersMayRun(st)
    && (st.DoCreateSession? ==> st.sid !in w.usedSessions)
    && w'.db == Apply(w.db, st).tables
    && w'.turns == w.turns && w'.waits == w.waits && w'.invokes == w.invokes && w'.tombs == w.tombs
    && w'.usedCalls == w.usedCalls && w'.events == w.events
    && w.usedSessions <= w'.usedSessions
    && (st.DoCreateSession? ==> st.sid in w'.usedSessions)
  }

  lemma OthersKeepTurn(w: World, st: Statement, w': World, sid: SessionId)
    requires Inv(w) && OthersRan(w, st, w') && sid in w.turns
    ensures TurnFits(w', sid)
  {
    var turn := w.turns[sid];
    assert TurnFits(w, sid);
    if turn.phase.Begun? || turn.phase.Active? {
      OthersHoldSession(w.db, st, sid);
    }
  }

  lemma OthersKeepInvoke(w: World, st: Statement, w': World, c: CallId)
    requires Inv(w) && OthersRan(w, st, w') && c in w.invokes
    ensures Linked(w', c)
    ensures var v := w.invokes[c];
            CallFits(w'.db, c, v, w'.turns[v.session].mode) && WaitFits(w'.db, c, v, WaitOf(w', c))
  {
    var v := w.invokes[c];
    assert InvokeFits(w, c) && TurnFits(w, v.session);
    OthersHoldSession(w.db, st, v.session);
    StatementEvolves(w.db, st);
    if !v.pc.Create? {
      OthersHoldCall(w.db, st, c);
      RowStillFits(w.db.calls[c], w'.db.calls[c], w.db.sessions[v.session].state.Revoked?,
                   w'.db.sessions[v.session].state.Revoked?, v.pc);
    }
  }

  lemma OthersKeepNames(w: World, st: Statement, w': World)
    requires Inv(w) && OthersRan(w, st, w')
    ensures forall c <- w'.db.calls :: c in w.db.calls && c in w'.usedCalls
    ensures forall s <- w'.db.sessions :: s in w'.usedSessions
    ensures forall s <- w'.tombs :: s in w'.usedSessions && (s in w'.db.sessions ==> w'.db.sessions[s].state.Revoked?)
  {
    StatementEvolves(w.db, st);
  }

  lemma OthersKeepEvent(w: World, st: Statement, w': World, e: Event)
    requires Inv(w) && OthersRan(w, st, w') && e in w.events
    ensures EventFits(w', e)
  {
    assert EventFits(w, e);
    OthersKeepNames(w, st, w');
    StatementEvolves(w.db, st);
  }

  lemma ExternalKeepsInv(w: World, st: Statement)
    requires Inv(w) && ExternalStatement(w, st)
    ensures Inv(DoExternal(w, st))
  {
    var w' := DoExternal(w, st);
    StatementKeepsConsistent(w.db, st);
    StatementEvolves(w.db, st);
    OthersKeepNames(w, st, w');
    ExternalKeepsDecisions(w, st);
    forall sid | sid in w'.turns ensures TurnFits(w', sid) {
      OthersKeepTurn(w, st, w', sid);
    }
    forall c | c in w'.invokes ensures InvokeFits(w', c) {
      OthersKeepInvoke(w, st, w', c);
      assert InvokeFits(w, c);
      ExternalKeepsNotLost(w, st, c);
    }
    forall e | e in w'.events ensures EventFits(w', e) {
      OthersKeepEvent(w, st, w', e);
    }
  }

  /** Outside `Decide`, no statement touches a decision. */
  lemma ExternalLeavesDecision(t: Tables, st: Statement, c: CallId)
    requires OthersMayRun(st) && !st.DoDecide? && c in t.calls && c in Apply(t, st).tables.calls
    ensures Apply(t, st).tables.calls[c].decision == t.calls[c].decision
    ensures Apply(t, st).tables.calls[c].session == t.calls[c].session
  {
  }

  lemma ExternalKeepsDecisions(w: World, st: Statement)
    requires Inv(w) && ExternalStatement(w, st)
    ensures DecidedOnce(DoExternal(w, st))
    ensures forall n <- w.notices :: NoticeFits(DoExternal(w, st), n)
  {
    var w' := DoExternal(w, st);
    OthersKeepNames(w, st, w');
    StatementEvolves(w.db, st);
    forall c | c in w'.db.calls
      ensures w'.db.calls[c].decision == w.db.calls[c].decision && w'.db.calls[c].session == w.db.calls[c].session
    {
      ExternalLeavesDecision(w.db, st, c);
    }
    assert forall c :: Heard(w', c) == Heard(w, c);
    forall n | n in w.notices ensures NoticeFits(w', n) {
      assert NoticeFits(w, n);
      var s := w.notices[n].session;
      assert s in w'.db.sessions ==> s in w.db.sessions;
    }
  }

  lemma ExternalKeepsNotLost(w: World, st: Statement, c: CallId)
    requires Inv(w) && ExternalStatement(w, st) && c in w.invokes
    ensures var w', v := DoExternal(w, st), w.invokes[c];
            NotLost(w'.db, c, v, WaitOf(w', c), Elsewhere(w', c, v.session))
  {
    var w' := DoExternal(w, st);
    assert InvokeFits(w, c);
    OthersKeepNames(w, st, w');
    StatementEvolves(w.db, st);
    if c in w'.db.calls {
      ExternalLeavesDecision(w.db, st, c);
    }
    assert Heard(w', c) == Heard(w, c);
  }

  // ---------------------------------------------------------------------------
  // Deciding

  lemma DecideCommitKeepsInv(w: World, user: UserId, cid: CallId, decision: Decision, io: Io, notice: int)
    requires Inv(w) && notice !in w.notices
    ensures Inv(DoDecideCommit(w, user, cid, decision, io, notice))
  {
    var w' := DoDecideCommit(w, user, cid, decision, io, notice);
    var st := DoDecide(user, cid, decision);
    if w' != w {
      assert OthersRan(w, st, w');
      StatementKeepsConsistent(w.db, st);
      StatementEvolves(w.db, st);
      OthersKeepNames(w, st, w');
      DecideCommitKeepsDecisions(w, user, cid, decision, io, notice);
      forall sid | sid in w'.turns ensures TurnFits(w', sid) {
        OthersKeepTurn(w, st, w', sid);
      }
      forall c | c in w'.invokes ensures InvokeFits(w', c) {
        OthersKeepInvoke(w, st, w', c);
        DecideCommitKeepsNotLost(w, user, cid, decision, io, notice, c);
      }
      forall e | e in w'.events ensures EventFits(w', e) {
        OthersKeepEvent(w, st, w', e);
      }
    }
  }

  lemma DecideCommitKeepsDecisions(w: World, user: UserId, cid: CallId, decision: Decision, io: Io, notice: int)
    requires Inv(w) && notice !in w.notices && DoDecideCommit(w, user, cid, decision, io, notice) != w
    ensures DecidedOnce(DoDecideCommit(w, user, cid, decision, io, notice))
    ensures var w' := DoDecideCommit(w, user, cid, decision, io, notice);
            forall n <- w'.notices :: NoticeFits(w', n)
    ensures Names(DoDecideCommit(w, user, cid, decision, io, notice))
  {
    var w' := DoDecideCommit(w, user, cid, decision, io, notice);
    OthersKeepNames(w, DoDecide(user, cid, decision), w');
    assert cid in w.db.calls && w.db.calls[cid].decision.None?;
    assert !Heard(w, cid) && cid !in w.silent && cid !in w.acks && cid !in Creating(w) by {
      if cid in w.invokes {
        assert InvokeFits(w, cid);
      }
    }
    forall n | n in w'.notices ensures NoticeFits(w', n) {
      if n in w.notices {
        assert NoticeFits(w, n);
        assert w.notices[n].call != cid;
      }
    }
    forall c | c in w'.db.calls && w'.db.calls[c].decision.None?
      ensures !Heard(w', c) && c !in w'.silent && c !in w'.acks
    {
      assert c != cid && w.db.calls[c].decision.None?;
      assert !Heard(w, c);
      assert forall n <- w'.notices :: w'.notices[n].call == c ==> n in w.notices;
    }
    assert Creating(w') == Creating(w);
  }

  lemma DecideCommitKeepsNotLost(w: World, user: UserId, cid: CallId, decision: Decision, io: Io, notice: int, c: CallId)
    requires Inv(w) && notice !in w.notices && c in w.invokes
    requires DoDecideCommit(w, user, cid, decision, io, notice) != w
    ensures var w', v := DoDecideCommit(w, user, cid, decision, io, notice), w.invokes[c];
            NotLost(w'.db, c, v, WaitOf(w', c), Elsewhere(w', c, v.session))
  {
    var w' := DoDecideCommit(w, user, cid, decision, io, notice);
    assert InvokeFits(w, c);
    if c == cid {
      assert c in w'.silent || (notice in w'.notices && w'.notices[notice].call == c);
    } else if Heard(w, c) {
      var n :| n in w.notices && w.notices[n].call == c;
      assert n in w'.notices && w'.notices[n].call == c;
    }
  }

  lemma DecideNotifyKeepsInv(w: World, notice: int)
    requires Inv(w) && notice in w.notices
    ensures Inv(DoDecideNotify(w, notice))
  {
    var w' := DoDecideNotify(w, notice);
    assert NoticeFits(w, notice);
    NotifyKeepsNames(w, notice);
    NotifyKeepsNotices(w, notice);
    NotifyKeepsDecidedOnce(w, notice);
    forall sid | sid in w'.turns ensures TurnFits(w', sid) {
      assert TurnFits(w, sid);
    }
    forall c | c in w'.invokes ensures InvokeFits(w', c) {
      assert InvokeFits(w, c) && TurnFits(w, w.invokes[c].session);
      NotifyKeepsInvoke(w, notice, c);
    }
    forall e | e in w'.events ensures EventFits(w', e) {
      assert EventFits(w, e);
    }
  }

  lemma NotifyKeepsNames(w: World, notice: int)
    requires Names(w) && notice in w.notices && NoticeFits(w, notice)
    ensures Names(DoDecideNotify(w, notice))
  {
    assert Creating(DoDecideNotify(w, notice)) == Creating(w);
  }

  lemma NotifyKeepsNotices(w: World, notice: int)
    requires DecidedOnce(w) && (forall n <- w.notices :: NoticeFits(w, n)) && notice in w.notices
    ensures var w' := DoDecideNotify(w, notice); forall n <- w'.notices :: NoticeFits(w', n)
  {
    var w' := DoDecideNotify(w, notice);
    forall n | n in w'.notices ensures NoticeFits(w', n) {
      assert NoticeFits(w, n) && w.notices[n].call != w.notices[notice].call;
    }
  }

  lemma NotifyKeepsDecidedOnce(w: World, notice: int)
    requires DecidedOnce(w) && notice in w.notices && NoticeFits(w, notice)
    ensures DecidedOnce(DoDecideNotify(w, notice))
  {
    var w' := DoDecideNotify(w, notice);
    forall c | c in w'.db.calls && w'.db.calls[c].decision.None?
      ensures !Heard(w', c) && c !in w'.silent && c !in w'.acks
    {
      assert !Heard(w, c);
      assert w.notices[notice].call != c;
    }
  }

  /** The waiter a decision finds is always the decider's own, so a decision is never withheld from it. */
  lemma NotifyKeepsInvoke(w: World, notice: int, c: CallId)
    requires notice in w.notices && NoticeFits(w, notice)
    requires c in w.invokes && InvokeFits(w, c) && TurnFits(w, w.invokes[c].session)
    ensures InvokeFits(DoDecideNotify(w, notice), c)
  {
    var w' := DoDecideNotify(w, notice);
    var m := w.notices[notice];
    var v := w.invokes[c];
    if m.call == c && (v.pc.MarkWaiting? || v.pc.Select?) && v.session !in w.tombs {
      assert m.session == v.session && m.user == v.user;
      assert w'.waits[c].mail == w.db.calls[c].decision;
    } else if m.call != c && Heard(w, c) {
      var n :| n in w.notices && w.notices[n].call == c;
      assert n in w'.notices && w'.notices[n].call == c;
    }
  }

  lemma TombstoneKeepsInv(w: World, sid: SessionId)
    requires Inv(w) && MayTombstone(w, sid)
    ensures Inv(w.(tombs := w.tombs + {sid}))
  {
    var w' := w.(tombs := w.tombs + {sid});
    assert Creating(w') == Creating(w);
    assert forall c :: Heard(w', c) == Heard(w, c);
    forall s | s in w'.turns ensures TurnFits(w', s) {
      assert TurnFits(w, s);
    }
    forall c | c in w'.invokes ensures InvokeFits(w', c) {
      assert InvokeFits(w, c);
    }
    forall n | n in w'.notices ensures NoticeFits(w', n) {
      assert NoticeFits(w, n);
    }
    forall e | e in w'.events ensures EventFits(w', e) {
      assert EventFits(w, e);
    }
  }

  // ---------------------------------------------------------------------------
  // Turns

  /** Between `w` and `w'` only session `sid` and its turn change, and no invocation is using them. */
  ghost predicate OnlySession(w: World, w': World, sid: SessionId) {
    && w'.db.devices == w.db.devices && w'.db.codes == w.db.codes && w'.db.calls == w.db.calls
    && (sid !in w.db.sessions ==> w'.db.sessions == w.db.sessions)
    && (sid in w.db.sessions ==>
          && sid in w'.db.sessions && w'.db.sessions == w.db.sessions[sid := w'.db.sessions[sid]]
          && w'.db.sessions[sid].user == w.db.sessions[sid].user
          && w'.db.sessions[sid].device == w.db.sessions[sid].device
          && w'.db.sessions[sid].state.Revoked? == w.db.sessions[sid].state.Revoked?)
    && (forall s | s != sid :: s in w.turns <==> s in w'.turns)
    && (forall s | s != sid && s in w.turns :: w'.turns[s] == w.turns[s])
    && w' == w.(db := w'.db, turns := w'.turns)
    && (forall c <- w.invokes :: w.invokes[c].session != sid)
  }

  lemma OnlySessionKeepsInv(w: World, w': World, sid: SessionId)
    requires Inv(w) && OnlySession(w, w', sid)
    requires sid in w'.turns ==> TurnFits(w', sid)
    ensures Inv(w')
  {
    assert Creating(w') == Creating(w);
    assert forall c :: Heard(w', c) == Heard(w, c);
    assert Consistent(w'.db) by {
      if sid in w.db.sessions {
        ReplacingSession(w.db, sid, w'.db.sessions[sid]);
      }
    }
    forall s | s in w'.turns ensures TurnFits(w', s) {
      if s != sid {
        assert TurnFits(w, s);
      }
    }
    forall c | c in w'.invokes ensures InvokeFits(w', c) {
      assert InvokeFits(w, c);
      assert WaitOf(w', c) == WaitOf(w, c);
    }
    forall n | n in w'.notices ensures NoticeFits(w', n) {
      assert NoticeFits(w, n);
    }
    forall e | e in w'.events ensures EventFits(w', e) {
      assert EventFits(w, e);
    }
  }

  /** A session whose turn is not inside an invocation has none. */
  lemma NoInvocation(w: World, sid: SessionId)
    requires Inv(w) && (sid in w.turns ==> w.turns[sid].current.None?)
    ensures forall c <- w.invokes :: w.invokes[c].session != sid
  {
    forall c | c in w.invokes ensures w.invokes[c].session != sid {
      assert InvokeFits(w, c);
    }
  }

  lemma ReserveKeepsInv(w: World, sid: SessionId, user: UserId)
    requires Inv(w) && MayReserve(w, sid)
    ensures Inv(DoReserve(w, sid, user))
  {
    NoInvocation(w, sid);
    OnlySessionKeepsInv(w, DoReserve(w, sid, user), sid);
  }

  lemma BeginKeepsInv(w: World, sid: SessionId, io: Io)
    requires Inv(w) && MayBegin(w, sid)
    ensures Inv(DoBegin(w, sid, io))
  {
    assert TurnFits(w, sid);
    NoInvocation(w, sid);
    OnlySessionKeepsInv(w, DoBegin(w, sid, io), sid);
  }

  lemma RereadKeepsInv(w: World, sid: SessionId, io: Io)
    requires Inv(w) && MayReread(w, sid)
    ensures Inv(DoReread(w, sid, io))
  {
    assert TurnFits(w, sid);
    NoInvocation(w, sid);
    var w' := DoReread(w, sid, io);
    assert w'.db == w.db && TurnFits(w', sid);
    assert OnlySession(w, w', sid);
    OnlySessionKeepsInv(w, w', sid);
  }

  lemma SettleKeepsInv(w: World, sid: SessionId, state: SessionState, io: Io)
    requires Inv(w) && MaySettle(w, sid, state)
    ensures Inv(DoSettle(w, sid, state, io))
  {
    NoInvocation(w, sid);
    OnlySessionKeepsInv(w, DoSettle(w, sid, state, io), sid);
  }

  /** Ending a turn has no waiter left to remove. */
  lemma ReleaseKeepsInv(w: World, sid: SessionId)
    requires Inv(w) && MayRelease(w, sid)
    ensures DoRelease(w, sid).waits == w.waits
    ensures Inv(DoRelease(w, sid))
  {
    NoInvocation(w, sid);
    forall c | c in w.waits ensures w.waits[c].session != sid {
      assert InvokeFits(w, c);
    }
    assert DoRelease(w, sid).waits == w.waits;
    OnlySessionKeepsInv(w, DoRelease(w, sid), sid);
  }

  lemma InvokeKeepsNames(w: World, sid: SessionId, cid: CallId)
    requires Names(w) && (forall n <- w.notices :: NoticeFits(w, n)) && MayInvoke(w, sid, cid)
    ensures Names(DoInvoke(w, sid, cid))
  {
    assert Creating(DoInvoke(w, sid, cid)) <= Creating(w) + {cid};
    forall n | n in w.notices ensures w.notices[n].call != cid {
      assert NoticeFits(w, n);
    }
  }

  lemma InvokeKeepsInv(w: World, sid: SessionId, cid: CallId)
    requires Inv(w) && MayInvoke(w, sid, cid)
    ensures Inv(DoInvoke(w, sid, cid))
  {
    var w' := DoInvoke(w, sid, cid);
    assert TurnFits(w, sid);
    InvokeKeepsNames(w, sid, cid);
    NoInvocation(w, sid);
    assert Creating(w') <= Creating(w) + {cid};
    assert forall c :: Heard(w', c) == Heard(w, c);
    forall s | s in w'.turns ensures TurnFits(w', s) {
      assert TurnFits(w, s);
    }
    forall c | c in w'.invokes ensures InvokeFits(w', c) {
      if c != cid {
        assert InvokeFits(w, c);
        assert WaitOf(w', c) == WaitOf(w, c);
      }
    }
    forall n | n in w'.notices ensures NoticeFits(w', n) {
      assert NoticeFits(w, n);
    }
    forall e | e in w'.events ensures EventFits(w', e) {
      assert EventFits(w, e);
    }
  }
}
