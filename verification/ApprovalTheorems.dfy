/**
 What the approval protocol guarantees over whole runs, under every
 interleaving and every outcome of every database call.
 */
module ApprovalTheorems {
  import opened Base
  import opened Schema
  import opened SchemaInvariant
  import opened Approval
  import opened ApprovalInvariant
  import opened ApprovalAdvance

  // ---------------------------------------------------------------------------
  // Rows along a run

  /** The statement behind a step, if it has one. */
  ghost function Behind(w: World, s: Step): Option<Statement>
    requires Enabled(w, s)
  {
    match s
    case External(st) => Some(st)
    case DecideCommit(user, cid, decision, io, _) => if io.Applied() then Some(DoDecide(user, cid, decision)) else None
    case Begin(sid, io) => if io.Applied() then Some(DoBeginTurn(w.turns[sid].user, sid)) else None
    case Settle(sid, state, io) => if io.Applied() then Some(DoSetState(w.turns[sid].user, sid, state)) else None
    case Advance(cid, io, arm, text, exit, now) => if io.Applied() then StatementOf(w, cid, text, exit, now) else None
    case _ => None
  }

  lemma StepIsStatement(w: World, s: Step)
    requires Enabled(w, s)
    ensures Take(w, s).db == (if Behind(w, s).Some? then Apply(w.db, Behind(w, s).value).tables else w.db)
  {
    match s
    case Advance(cid, io, arm, text, exit, now) => MoveIsStatement(w, cid, io, arm, text, exit, now);
    case _ =>
  }

  lemma StepEvolves(w: World, s: Step)
    requires Enabled(w, s)
    ensures Evolves(w.db, Take(w, s).db)
  {
    StepIsStatement(w, s);
    if Behind(w, s).Some? {
      StatementEvolves(w.db, Behind(w, s).value);
    }
  }

  /** A call id that has been used and is past its creation. */
  predicate Past(w: World, c: CallId) {
    c in w.usedCalls && c !in Creating(w)
  }

  lemma RowsArePast(w: World, c: CallId)
    requires Inv(w) && c in w.db.calls
    ensures Past(w, c)
  {
    if c in w.invokes {
      assert InvokeFits(w, c);
    }
  }

  lemma PastStays(w: World, s: Step, c: CallId)
    requires Enabled(w, s) && Past(w, c)
    ensures Past(Take(w, s), c)
  {
    match s
    case Advance(cid, io, arm, text, exit, now) =>
      if cid == c {
        PastMove(w, c, io, arm, text, exit, now);
      }
    case _ =>
  }

  lemma PastMove(w: World, c: CallId, io: Io, arm: bool, text: string, exit: int, now: Time)
    requires CanMove(w, c, arm) && !w.invokes[c].pc.Create?
    ensures !MoveOf(w, c, io, arm, text, exit, now).pc.Create?
  {
  }

  lemma OnlyCreateAdds(t: Tables, st: Statement, c: CallId)
    requires c !in t.calls && c in Apply(t, st).tables.calls
    ensures st.DoCreateCall? && st.cid == c
  {
  }

  lemma OnlyCreatingCreates(w: World, s: Step, c: CallId)
    requires Enabled(w, s) && Behind(w, s).Some? && Behind(w, s).value.DoCreateCall? && Behind(w, s).value.cid == c
    ensures c in Creating(w)
  {
  }

  /** No statement brings a past call back: a row, once deleted, stays away. */
  lemma RowsStayAway(w: World, s: Step, c: CallId)
    requires Enabled(w, s) && Past(w, c) && c in Take(w, s).db.calls
    ensures c in w.db.calls
  {
    StepIsStatement(w, s);
    if c !in w.db.calls {
      OnlyCreateAdds(w.db, Behind(w, s).value, c);
      OnlyCreatingCreates(w, s, c);
    }
  }

  /** How a row relates to itself later on. */
  predicate Reaches(a: Call, b: Call) {
    && (a.decision.Some? ==> b.decision == a.decision)
    && (a.status.Terminal() ==> b == a)
    && (a.status.Started? ==> !b.status.Pending? && !b.status.Denied? && b.decision == a.decision)
  }

  lemma ReachesOneMore(a: Call, b: Call, c: Call)
    requires Reaches(a, b) && CallEvolves(b, c)
    ensures Reaches(a, c)
  {
  }

  /** What one step means for the row of `c`. */
  predicate RowStep(w: World, w': World, c: CallId) {
    && (Past(w, c) ==> Past(w', c) && (c in w'.db.calls ==> c in w.db.calls))
    && (c in w.db.calls ==> Past(w, c))
    && (c in w.db.calls && c in w'.db.calls ==> CallEvolves(w.db.calls[c], w'.db.calls[c]))
  }

  lemma StepIsRowStep(w: World, s: Step, c: CallId)
    requires Inv(w) && Enabled(w, s)
    ensures RowStep(w, Take(w, s), c)
  {
    if c in w.db.calls {
      RowsArePast(w, c);
    }
    if Past(w, c) {
      PastStays(w, s, c);
      if c in Take(w, s).db.calls {
        RowsStayAway(w, s, c);
      }
    }
    StepEvolves(w, s);
  }

  lemma RunIsRowSteps(ws: seq<World>, steps: seq<Step>, c: CallId)
    requires Run(ws, steps)
    ensures forall k | 0 <= k < |ws| - 1 :: RowStep(ws[k], ws[k + 1], c)
  {
    forall k | 0 <= k < |ws| - 1 ensures RowStep(ws[k], ws[k + 1], c) {
      RunKeepsInv(ws, steps, k);
      StepIsRowStep(ws[k], steps[k], c);
    }
  }

  lemma {:induction false} RowStepsReach(ws: seq<World>, i: nat, j: nat, c: CallId)
    requires forall k | 0 <= k < |ws| - 1 :: RowStep(ws[k], ws[k + 1], c)
    requires i <= j < |ws| && c in ws[i].db.calls && Past(ws[i], c)
    ensures Past(ws[j], c)
    ensures c in ws[j].db.calls ==> Reaches(ws[i].db.calls[c], ws[j].db.calls[c])
  {
    if i < j {
      RowStepsReach(ws, i, j - 1, c);
      assert RowStep(ws[j - 1], ws[j - 1 + 1], c);
      if c in ws[j].db.calls {
        ReachesOneMore(ws[i].db.calls[c], ws[j - 1].db.calls[c], ws[j].db.calls[c]);
      }
    }
  }

  lemma RowsReach(ws: seq<World>, steps: seq<Step>, i: nat, j: nat, c: CallId)
    requires Run(ws, steps) && i <= j < |ws| && c in ws[i].db.calls && c in ws[j].db.calls
    ensures Reaches(ws[i].db.calls[c], ws[j].db.calls[c])
  {
    RunIsRowSteps(ws, steps, c);
    RunKeepsInv(ws, steps, i);
    RowsArePast(ws[i], c);
    RowStepsReach(ws, i, j, c);
  }

  // ---------------------------------------------------------------------------
  // Execution needs approval

  /** In this step the row of `c` becomes `started`: created so under persisted full access, or after an approval. */
  predicate EntersStarted(w: World, w': World, c: CallId) {
    && c in w'.db.calls && w'.db.calls[c].status.Started?
    && (if c in w.db.calls
        then w.db.calls[c].status.Pending? && w.db.calls[c].decision.Some? && w.db.calls[c].decision.value.Approves()
        else w'.db.calls[c].session in w.db.sessions && w.db.sessions[w'.db.calls[c].session].mode.FullAccess?)
  }

  /** The points of an invocation from which the executor may be reached. */
  predicate Cleared(w: World, c: CallId) {
    || (c in w.invokes && (w.invokes[c].pc.CheckDevice? || w.invokes[c].pc.Execute?))
    || ExecReached(c) in w.events
  }

  lemma MoveThatClears(w: World, c: CallId, io: Io, arm: bool, text: string, exit: int, now: Time)
    requires CanMove(w, c, arm) && !w.invokes[c].pc.CheckDevice? && !w.invokes[c].pc.Execute?
    ensures var m := MoveOf(w, c, io, arm, text, exit, now);
            && !m.pc.Execute? && m.event != Some(ExecReached(c))
            && (m.pc.CheckDevice? ==> w.invokes[c].pc.Create? || w.invokes[c].pc.Start?)
  {
    if w.invokes[c].pc.Finish? {
      FinishingNeverClears(w, c, io, arm, text, exit, now);
    }
  }

  lemma FinishingNeverClears(w: World, c: CallId, io: Io, arm: bool, text: string, exit: int, now: Time)
    requires CanMove(w, c, arm) && w.invokes[c].pc.Finish?
    ensures var m := MoveOf(w, c, io, arm, text, exit, now);
            !m.pc.Execute? && !m.pc.CheckDevice? && m.event != Some(ExecReached(c))
  {
  }

  lemma ClearedByCreateOrStart(w: World, c: CallId, m: Move)
    requires c in w.invokes && w.invokes[c].session in w.turns && !Cleared(w, c) && Cleared(DoAdvance(w, c, m), c)
    requires !m.pc.Execute? && m.event != Some(ExecReached(c))
    ensures m.pc.CheckDevice?
  {
  }

  lemma CreatingEntersStarted(w: World, c: CallId, io: Io)
    requires Ready(w, c) && w.invokes[c].pc.Create?
    requires CreateMove(w, c, io).pc.CheckDevice?
    ensures EntersStarted(w, DoAdvance(w, c, CreateMove(w, c, io)), c)
  {
  }

  lemma StartingEntersStarted(w: World, c: CallId, io: Io)
    requires Ready(w, c) && w.invokes[c].pc.Start?
    requires StartMove(w, c, io).pc.CheckDevice?
    ensures EntersStarted(w, DoAdvance(w, c, StartMove(w, c, io)), c)
  {
  }

  lemma ClearingEntersStarted(w: World, c: CallId, io: Io, arm: bool, text: string, exit: int, now: Time)
    requires Inv(w) && CanMove(w, c, arm) && !Cleared(w, c)
    requires Cleared(DoAdvance(w, c, MoveOf(w, c, io, arm, text, exit, now)), c)
    ensures EntersStarted(w, DoAdvance(w, c, MoveOf(w, c, io, arm, text, exit, now)), c)
  {
    assert InvokeFits(w, c) && TurnFits(w, w.invokes[c].session);
    MoveThatClears(w, c, io, arm, text, exit, now);
    ClearedByCreateOrStart(w, c, MoveOf(w, c, io, arm, text, exit, now));
    if w.invokes[c].pc.Create? {
      CreatingEntersStarted(w, c, io);
    } else {
      StartingEntersStarted(w, c, io);
    }
  }

  lemma ClearingIsOwnStep(w: World, s: Step, c: CallId)
    requires Enabled(w, s) && !Cleared(w, c) && Cleared(Take(w, s), c)
    ensures s.Advance? && s.cid == c
  {
    match s
    case Advance(cid, io, arm, text, exit, now) =>
      if cid != c {
        EventIsOwn(w, cid, io, arm, text, exit, now);
      }
    case _ =>
  }

  lemma EventIsOwn(w: World, c: CallId, io: Io, arm: bool, text: string, exit: int, now: Time)
    requires CanMove(w, c, arm)
    ensures var e := MoveOf(w, c, io, arm, text, exit, now).event; e.Some? ==> e.value.call == c
  {
  }

  /** The executor is reached for a call only if its row entered `started` before. */
  lemma {:induction false} ExecNeedsStarted(ws: seq<World>, steps: seq<Step>, i: nat, c: CallId)
    requires Run(ws, steps) && i < |ws| && Cleared(ws[i], c)
    ensures exists j :: 0 <= j < i && EntersStarted(ws[j], ws[j + 1], c)
  {
    if i > 0 {
      var w, s := ws[i - 1], steps[i - 1];
      if Cleared(w, c) {
        ExecNeedsStarted(ws, steps, i - 1, c);
      } else {
        RunKeepsInv(ws, steps, i - 1);
        ClearingIsOwnStep(w, s, c);
        ClearingEntersStarted(w, c, s.io, s.arm, s.text, s.exit, s.now);
        assert EntersStarted(ws[i - 1], ws[i - 1 + 1], c);
      }
    }
  }

  /** In this step a call that never started is closed: denied, aborted, or failed by an unpair. */
  predicate ClosedUnstarted(w: World, w': World, c: CallId) {
    && c in w.db.calls && w.db.calls[c].status.Pending?
    && c in w'.db.calls && w'.db.calls[c].status.Terminal()
  }

  /** A call that is denied, or closed before it started, at any time in a run is never executed in it. */
  lemma RefusedIsNeverExecuted(ws: seq<World>, steps: seq<Step>, i: nat, c: CallId, k: nat)
    requires Run(ws, steps) && i < |ws| && ExecReached(c) in ws[i].events
    ensures k < |ws| && c in ws[k].db.calls ==> ws[k].db.calls[c].decision != Some(Deny)
    ensures k + 1 < |ws| ==> !ClosedUnstarted(ws[k], ws[k + 1], c)
  {
    ExecNeedsStarted(ws, steps, i, c);
    var j :| 0 <= j < i && EntersStarted(ws[j], ws[j + 1], c);
    RunKeepsInv(ws, steps, j + 1);
    assert RowAgrees(ws[j + 1].db.calls[c]);
    if k < |ws| && c in ws[k].db.calls {
      if k <= j + 1 {
        RowsReach(ws, steps, k, j + 1, c);
      } else {
        RowsReach(ws, steps, j + 1, k, c);
      }
    }
    if k + 1 < |ws| && c in ws[k].db.calls && c in ws[k + 1].db.calls {
      if k <= j {
        RowsReach(ws, steps, k + 1, j + 1, c);
      } else {
        RowsReach(ws, steps, j + 1, k, c);
      }
    }
  }

  // ---------------------------------------------------------------------------
  // Finishing reports what is durable

  /**
   The status finishing a call hands back is the row's terminal status from
   then on, for as long as the row exists; without an error it is the status
   that was asked for.
   */
  lemma FinishReportsDurableStatus(ws: seq<World>, steps: seq<Step>, i: nat, j: nat, c: CallId)
    requires Run(ws, steps) && i <= j < |ws| && c in ws[i].invokes && ws[i].invokes[c].pc.Finished?
    ensures var pc := ws[i].invokes[c].pc;
            && (pc.ok ==> pc.status == Some(pc.want))
            && (pc.status.Some? ==> pc.status.value.Terminal() && c in ws[i].db.calls)
            && (pc.status.Some? && c in ws[j].db.calls ==> ws[j].db.calls[c].status == pc.status.value)
  {
    RunKeepsInv(ws, steps, i);
    assert InvokeFits(ws[i], c);
    if c in ws[j].db.calls {
      RowsReach(ws, steps, i, j, c);
    }
  }

  lemma {:induction false} EventsStay(ws: seq<World>, steps: seq<Step>, i: nat, j: nat, e: Event)
    requires Run(ws, steps) && i <= j < |ws| && e in ws[i].events
    ensures e in ws[j].events
  {
    if i < j {
      EventsStay(ws, steps, i, j - 1, e);
    }
  }

  /** Every completion event reports the status the row has, and keeps. */
  lemma CompletionEventsAreDurable(ws: seq<World>, steps: seq<Step>, i: nat, j: nat, c: CallId, status: CallStatus)
    requires Run(ws, steps) && i <= j < |ws| && ToolCompleted(c, status) in ws[i].events && c in ws[j].db.calls
    ensures status.Terminal() && ws[j].db.calls[c].status == status
  {
    EventsStay(ws, steps, i, j, ToolCompleted(c, status));
    RunKeepsInv(ws, steps, j);
    assert EventFits(ws[j], ToolCompleted(c, status));
  }

  // ---------------------------------------------------------------------------
  // Decisions

  /** In this step the abort wins: an undecided pending call fails and stays undecided. */
  predicate AbortWins(w: World, w': World, c: CallId) {
    ClosedUnstarted(w, w', c) && w.db.calls[c].decision.None? && Aborted(w'.db.calls[c])
  }

  /** A decision and an abort never both win the same call, in either order. */
  lemma OneWinner(ws: seq<World>, steps: seq<Step>, j: nat, k: nat, c: CallId)
    requires Run(ws, steps) && j < |ws| && k + 1 < |ws| && AbortWins(ws[k], ws[k + 1], c) && c in ws[j].db.calls
    ensures ws[j].db.calls[c].decision.None?
  {
    if j <= k {
      RowsReach(ws, steps, j, k, c);
    } else {
      RowsReach(ws, steps, k + 1, j, c);
    }
  }

  /** A recorded decision never changes, and every acknowledged decision is the recorded one. */
  lemma AcknowledgedIsRecorded(ws: seq<World>, steps: seq<Step>, i: nat, c: CallId)
    requires Run(ws, steps) && i < |ws| && c in ws[i].acks && c in ws[i].db.calls
    ensures ws[i].db.calls[c].decision == Some(ws[i].acks[c])
  {
    RunKeepsInv(ws, steps, i);
  }

  predicate Upgraded(w: World, w': World, sid: SessionId) {
    && sid in w.db.sessions && w.db.sessions[sid].mode.PerCommand?
    && sid in w'.db.sessions && w'.db.sessions[sid].mode.FullAccess?
  }

  predicate RecordsApproveSession(w: World, w': World, cid: CallId) {
    && cid in w.db.calls && w.db.calls[cid].decision.None?
    && cid in w'.db.calls && w'.db.calls[cid].decision == Some(ApproveSession)
  }

  /** Apart from the owner's explicit setting of a quiet session, a session gains full access exactly with the decision. */
  lemma UpgradeIsTheDecision(t: Tables, st: Statement, sid: SessionId)
    requires sid in t.sessions && t.sessions[sid].mode.PerCommand?
    requires sid in Apply(t, st).tables.sessions && Apply(t, st).tables.sessions[sid].mode.FullAccess?
    ensures || (st.DoSetMode? && st.sid == sid && st.mode.FullAccess? && Quiet(t.sessions[sid].state))
            || (st.DoDecide? && st.decision.ApproveSession? && st.cid in t.calls && t.calls[st.cid].session == sid
                && t.calls[st.cid].decision.None? && Apply(t, st).tables.calls[st.cid].decision == Some(ApproveSession))
  {
  }

  lemma OnlyDecideRecords(t: Tables, st: Statement, cid: CallId)
    requires cid in t.calls && t.calls[cid].decision.None?
    requires cid in Apply(t, st).tables.calls && Apply(t, st).tables.calls[cid].decision == Some(ApproveSession)
    ensures st.DoDecide? && st.cid == cid && CallVisible(t, st.user, cid)
    ensures Apply(t, st).tables.sessions[t.calls[cid].session].mode.FullAccess?
  {
  }

  lemma ApproveSessionUpgrades(w: World, s: Step, cid: CallId)
    requires Enabled(w, s) && RecordsApproveSession(w, Take(w, s), cid)
    ensures var sid := w.db.calls[cid].session;
            sid in Take(w, s).db.sessions && Take(w, s).db.sessions[sid].mode.FullAccess?
  {
    StepIsStatement(w, s);
    OnlyDecideRecords(w.db, Behind(w, s).value, cid);
  }

  lemma UpgradeNeedsApproveSession(w: World, s: Step, sid: SessionId)
    requires Enabled(w, s) && Upgraded(w, Take(w, s), sid)
    ensures || (Quiet(w.db.sessions[sid].state) && s.External? && s.st.DoSetMode? && s.st.sid == sid)
            || exists c :: RecordsApproveSession(w, Take(w, s), c) && w.db.calls[c].session == sid
  {
    StepIsStatement(w, s);
    var st := Behind(w, s).value;
    UpgradeIsTheDecision(w.db, st, sid);
    if st.DoDecide? {
      assert RecordsApproveSession(w, Take(w, s), st.cid);
    }
  }

  /** What the wait hands on is the decision on record. */
  lemma WaiterReturnsRecordedDecision(ws: seq<World>, steps: seq<Step>, i: nat, c: CallId)
    requires Run(ws, steps) && i < |ws| && c in ws[i].invokes && ws[i].invokes[c].pc.Leave?
    requires ws[i].invokes[c].pc.result.Some?
    ensures c in ws[i].db.calls && ws[i].db.calls[c].decision == ws[i].invokes[c].pc.result
  {
    RunKeepsInv(ws, steps, i);
    assert InvokeFits(ws[i], c);
  }

  /**
   While the session is not revoked, an invocation that waits has the acknowledged
   decision in its channel, however creation, registration, lookup and decision
   were interleaved.
   */
  lemma AcknowledgedReachesWaiter(ws: seq<World>, steps: seq<Step>, i: nat, c: CallId)
    requires Run(ws, steps) && i < |ws| && c in ws[i].acks && c in ws[i].invokes && ws[i].invokes[c].pc.Select?
    requires var sid := ws[i].invokes[c].session; sid in ws[i].db.sessions && !ws[i].db.sessions[sid].state.Revoked?
    ensures c in ws[i].waits && ws[i].waits[c].mail == Some(ws[i].acks[c])
  {
    var w := ws[i];
    RunKeepsInv(ws, steps, i);
    assert InvokeFits(w, c);
    forall n | n in w.notices ensures w.notices[n].call != c {
      assert NoticeFits(w, n);
    }
  }

  // ---------------------------------------------------------------------------
  // The mode a turn holds in memory

  /**
   From the begin of a turn to its terminal write, and unless an unpair revokes
   it, the session exists, is in use and unarchived, and full access in memory
   is full access in the database.
   */
  lemma TurnModeIsPersisted(ws: seq<World>, steps: seq<Step>, i: nat, sid: SessionId)
    requires Run(ws, steps) && i < |ws| && sid in ws[i].turns
    requires ws[i].turns[sid].phase.Begun? || ws[i].turns[sid].phase.Active?
    ensures sid in ws[i].db.sessions
    ensures var row := ws[i].db.sessions[sid];
            !row.state.Revoked? ==>
              && (row.state.Running? || row.state.WaitingApproval?) && row.archivedAt.None?
              && (ws[i].turns[sid].phase.Active? && ws[i].turns[sid].mode.FullAccess? ==> row.mode.FullAccess?)
  {
    RunKeepsInv(ws, steps, i);
    assert TurnFits(ws[i], sid);
  }

  /** While a turn runs, no step of anybody lowers, archives or deletes its session. */
  lemma NothingLowersARunningSession(w: World, s: Step, sid: SessionId)
    requires Inv(w) && Enabled(w, s) && sid in w.turns && (w.turns[sid].phase.Begun? || w.turns[sid].phase.Active?)
    requires !(s.Settle? && s.sid == sid)
    ensures sid in w.db.sessions && sid in Take(w, s).db.sessions
    ensures var a, b := w.db.sessions[sid], Take(w, s).db.sessions[sid];
            !b.state.Revoked? ==> b.archivedAt == a.archivedAt && (a.mode.FullAccess? ==> b.mode.FullAccess?)
                                  && !Quiet(b.state)
  {
    assert TurnFits(w, sid);
    StepIsStatement(w, s);
    StepKeepsInv(w, s);
    if Behind(w, s).Some? {
      RunningSessionKept(w, s, sid);
    }
  }

  lemma RunningSessionKept(w: World, s: Step, sid: SessionId)
    requires Enabled(w, s) && Behind(w, s).Some? && sid in w.db.sessions && !Quiet(w.db.sessions[sid].state)
    requires !(s.Settle? && s.sid == sid)
    ensures var db := Apply(w.db, Behind(w, s).value).tables;
            && sid in db.sessions
            && (db.sessions[sid].state.Revoked?
                || (&& db.sessions[sid].archivedAt == w.db.sessions[sid].archivedAt && !Quiet(db.sessions[sid].state)
                    && (w.db.sessions[sid].mode.FullAccess? ==> db.sessions[sid].mode.FullAccess?)))
  {
    var st := Behind(w, s).value;
    if OthersMayRun(st) {
      OthersHoldSession(w.db, st, sid);
    }
  }
}
