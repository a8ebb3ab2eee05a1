/**
 How an invocation leaves its wait.  As long as its own database calls answer,
 a recorded decision is what it leaves with, timeouts and cancellations included;
 a call that fails to answer can lose an acknowledged decision.
 */
module ApprovalOutcome {
  import opened Base
  import opened Schema
  import opened SchemaInvariant
  import opened Approval
  import opened ApprovalInvariant
  import opened ApprovalAdvance
  import opened ApprovalTheorems
  import opened ApprovalWaiting

  /** A step of the invocation `c` in which the database answers and the service is not closed. */
  predicate Answered(w: World, s: Step, c: CallId) {
    s.Advance? && s.cid == c && c in w.invokes ==> s.io.Ok? && (w.invokes[c].pc.Register? ==> !s.arm)
  }

  /**
   Where a call whose session is not revoked can stand when every database call of
   its invocation has answered: nothing is given up but a row the abort has closed.
   */
  predicate PlaceFits(row: Call, pc: Pc) {
    match pc
    case Unregister => false
    case AbortUpdate(attempt) => row.status.Pending?
    case AbortLookup(attempt, hit) => if hit then Aborted(row) else row.status.Pending? && row.decision.Some?
    case Leave(None) => Aborted(row)
    case Finish(want, at) => want.Failed? ==> !row.status.Pending? && row.decision != Some(Deny)
    case _ => true
  }

  ghost predicate OutcomeFits(w: World, c: CallId) {
    && c in w.usedCalls
    && (c in w.invokes && !w.invokes[c].pc.Create? && c in w.db.calls && Unrevoked(w, w.invokes[c].session) ==>
          PlaceFits(w.db.calls[c], w.invokes[c].pc))
  }

  // ---------------------------------------------------------------------------
  // Steps of others

  /** Somebody else's step: the row is the same or decided meanwhile, and revocation is final. */
  ghost predicate RowHeld(w: World, w': World, c: CallId) {
    && w.usedCalls <= w'.usedCalls && (c in w'.invokes ==> c in w.invokes && w'.invokes[c] == w.invokes[c])
    && (c in w.invokes && !w.invokes[c].pc.Create? && Unrevoked(w', w.invokes[c].session) && c in w'.db.calls ==>
          Unrevoked(w, w.invokes[c].session) && c in w.db.calls && CallHeld(w.db.calls[c], w'.db.calls[c]))
  }

  lemma HeldRowFits(a: Call, b: Call, pc: Pc)
    requires PlaceFits(a, pc) && CallHeld(a, b)
    ensures PlaceFits(b, pc)
  {
  }

  lemma HeldKeepsOutcome(w: World, w': World, c: CallId)
    requires RowHeld(w, w', c) && OutcomeFits(w, c)
    ensures OutcomeFits(w', c)
  {
    if c in w'.invokes && !w'.invokes[c].pc.Create? && c in w'.db.calls && Unrevoked(w', w'.invokes[c].session) {
      HeldRowFits(w.db.calls[c], w'.db.calls[c], w.invokes[c].pc);
    }
  }

  lemma StatementHoldsRow(w: World, st: Statement, w': World, c: CallId)
    requires Inv(w) && OthersRan(w, st, w')
    ensures RowHeld(w, w', c)
  {
    if c in w.invokes && !w.invokes[c].pc.Create? {
      assert InvokeFits(w, c) && TurnFits(w, w.invokes[c].session);
      OthersHoldSession(w.db, st, w.invokes[c].session);
      OthersHoldCall(w.db, st, c);
      StatementEvolves(w.db, st);
    }
  }

  lemma OnlySessionHoldsRow(w: World, w': World, sid: SessionId, c: CallId)
    requires OnlySession(w, w', sid)
    ensures RowHeld(w, w', c)
  {
  }

  lemma OtherAdvanceHoldsRow(w: World, k: CallId, m: Move, c: CallId)
    requires k in w.invokes && w.invokes[k].session in w.turns && DbMoved(w.db, m.db, w.invokes[k].session, k) && k != c
    ensures RowHeld(w, DoAdvance(w, k, m), c)
  {
  }

  lemma NotifyHoldsRow(w: World, notice: int, c: CallId)
    requires notice in w.notices
    ensures RowHeld(w, DoDecideNotify(w, notice), c)
  {
  }

  lemma DecideHoldsRow(w: World, user: UserId, cid: CallId, decision: Decision, io: Io, notice: int, c: CallId)
    requires Inv(w) && notice !in w.notices
    ensures RowHeld(w, DoDecideCommit(w, user, cid, decision, io, notice), c)
  {
    var w' := DoDecideCommit(w, user, cid, decision, io, notice);
    if w' != w {
      StatementHoldsRow(w, DoDecide(user, cid, decision), w', c);
    }
  }

  lemma TurnStepHoldsRow(w: World, s: Step, c: CallId)
    requires Inv(w) && Enabled(w, s) && TurnStep(s)
    ensures RowHeld(w, Take(w, s), c)
  {
    assert OnlySession(w, Take(w, s), s.sid) by {
      if s.Release? {
        ReleaseKeepsInv(w, s.sid);
      }
      TurnStepHasNoInvocation(w, s);
      TurnStepIsOnlySession(w, s);
    }
    OnlySessionHoldsRow(w, Take(w, s), s.sid, c);
  }

  lemma InvokeHoldsRow(w: World, sid: SessionId, cid: CallId, c: CallId)
    requires MayInvoke(w, sid, cid) && c in w.usedCalls
    ensures RowHeld(w, DoInvoke(w, sid, cid), c)
  {
  }

  lemma OtherStepHoldsRow(w: World, s: Step, c: CallId)
    requires Inv(w) && Enabled(w, s) && c in w.usedCalls && !(s.Advance? && s.cid == c)
    ensures RowHeld(w, Take(w, s), c)
  {
    match s
    case External(st) => StatementHoldsRow(w, st, DoExternal(w, st), c);
    case DecideCommit(user, cid, decision, io, notice) => DecideHoldsRow(w, user, cid, decision, io, notice, c);
    case DecideNotify(notice) => NotifyHoldsRow(w, notice, c);
    case Tombstone(_) =>
    case Invoke(sid, cid) => InvokeHoldsRow(w, sid, cid, c);
    case Advance(k, io, arm, text, exit, now) =>
      MovesDb(w, k, io, arm, text, exit, now);
      OtherAdvanceHoldsRow(w, k, MoveOf(w, k, io, arm, text, exit, now), c);
    case _ => TurnStepHoldsRow(w, s, c);
  }

  // ---------------------------------------------------------------------------
  // The invocation's own steps

  /** The move leaves the invocation where `PlaceFits` allows, on the row as it then is. */
  predicate Lands(c: CallId, m: Move) {
    c in m.db.calls ==> m.pc.Create? || PlaceFits(m.db.calls[c], m.pc)
  }

  /** What the moves rely on: a visible row that fits its place. */
  ghost predicate Settled(w: World, c: CallId) {
    && Ready(w, c) && c in w.db.calls && !w.invokes[c].pc.Create? && Unrevoked(w, w.invokes[c].session)
    && w.invokes[c].session !in w.tombs
    && CallVisible(w.db, w.invokes[c].user, c) && PlaceFits(w.db.calls[c], w.invokes[c].pc)
  }

  lemma RegisterLands(w: World, c: CallId, arm: bool)
    requires Settled(w, c) && CanMove(w, c, arm) && (w.invokes[c].pc.Register? ==> !arm)
    requires var pc := w.invokes[c].pc; pc.Register? || pc.Reconcile? || pc.Unregister? || pc.Deliver?
    ensures Lands(c, RegisterMove(w, c, Ok, arm))
  {
  }

  lemma MarkLands(w: World, c: CallId)
    requires Settled(w, c)
    requires var pc := w.invokes[c].pc; pc.MarkWaiting? || pc.MarkRunning?
    ensures Lands(c, MarkMove(w, c, Ok))
  {
  }

  lemma SelectLands(w: World, c: CallId, arm: bool)
    requires Settled(w, c) && CanMove(w, c, arm)
    requires var pc := w.invokes[c].pc; pc.Select? || pc.Confirm? || pc.Leave?
    ensures Lands(c, SelectMove(w, c, Ok, arm))
  {
  }

  lemma AbortLands(w: World, c: CallId, arm: bool, now: Time)
    requires Settled(w, c)
    requires var pc := w.invokes[c].pc; pc.AbortUpdate? || pc.AbortLookup?
    ensures Lands(c, AbortMove(w, c, Ok, arm, now))
  {
  }

  lemma ExecLands(w: World, c: CallId, arm: bool)
    requires Settled(w, c)
    requires var pc := w.invokes[c].pc; pc.CheckDevice? || pc.Execute? || pc.Executing? || pc.Finished?
    ensures Lands(c, ExecMove(w, c, Ok, arm))
  {
  }

  lemma StartLands(w: World, c: CallId)
    requires Settled(w, c) && w.invokes[c].pc.Start?
    ensures Lands(c, StartMove(w, c, Ok))
  {
  }

  lemma FailLands(w: World, c: CallId, arm: bool, text: string, now: Time)
    requires Settled(w, c) && w.invokes[c].pc.Finish?
    requires var at := w.invokes[c].pc.at; at.FailUpdate? || at.FailLookup? || at.Look?
    ensures Lands(c, FailMove(w, c, Ok, arm, text, now))
  {
  }

  lemma WriteLands(w: World, c: CallId, text: string, exit: int, now: Time)
    requires Settled(w, c) && w.invokes[c].pc.Finish?
    requires var at := w.invokes[c].pc.at; at.Write? || at.Check? || at.Redo? || at.Recheck?
    ensures Lands(c, WriteMove(w, c, Ok, text, exit, now))
  {
  }

  lemma MoveLands(w: World, c: CallId, arm: bool, text: string, exit: int, now: Time)
    requires Settled(w, c) && CanMove(w, c, arm) && (w.invokes[c].pc.Register? ==> !arm)
    ensures Lands(c, MoveOf(w, c, Ok, arm, text, exit, now))
  {
    match w.invokes[c].pc
    case Register | Reconcile | Unregister | Deliver(_) => RegisterLands(w, c, arm);
    case MarkWaiting | MarkRunning(_) => MarkLands(w, c);
    case Select | Confirm(_) | Leave(_) => SelectLands(w, c, arm);
    case AbortUpdate(_) | AbortLookup(_, _) => AbortLands(w, c, arm, now);
    case Start(_) => StartLands(w, c);
    case CheckDevice | Execute | Executing | Finished(_, _, _) => ExecLands(w, c, arm);
    case Finish(_, at) =>
      if at.FailUpdate? || at.FailLookup? || at.Look? {
        FailLands(w, c, arm, text, now);
      } else {
        WriteLands(w, c, text, exit, now);
      }
    case Return =>
  }

  lemma OwnStepKeepsOutcome(w: World, s: Step, c: CallId)
    requires Inv(w) && Enabled(w, s) && OutcomeFits(w, c) && s.Advance? && s.cid == c && Answered(w, s, c)
    ensures OutcomeFits(Take(w, s), c)
  {
    var v, m := w.invokes[c], MoveOf(w, c, s.io, s.arm, s.text, s.exit, s.now);
    assert InvokeFits(w, c) && TurnFits(w, v.session);
    MovesDb(w, c, s.io, s.arm, s.text, s.exit, s.now);
    if !v.pc.Create? && Unrevoked(w, v.session) {
      CallIsVisible(w, c);
      assert Settled(w, c);
      MoveLands(w, c, s.arm, s.text, s.exit, s.now);
    }
  }

  lemma StepKeepsOutcome(w: World, s: Step, c: CallId)
    requires Inv(w) && Enabled(w, s) && OutcomeFits(w, c) && Answered(w, s, c)
    ensures OutcomeFits(Take(w, s), c)
  {
    if s.Advance? && s.cid == c {
      OwnStepKeepsOutcome(w, s, c);
    } else {
      OtherStepHoldsRow(w, s, c);
      HeldKeepsOutcome(w, Take(w, s), c);
    }
  }

  lemma OnlyInvokeUses(w: World, s: Step, c: CallId)
    requires Enabled(w, s) && c !in w.usedCalls && c in Take(w, s).usedCalls
    ensures OutcomeFits(Take(w, s), c)
  {
    assert s.Invoke? && s.cid == c;
  }

  /** Every database call of the invocation has answered, from the beginning to step `i`. */
  ghost predicate AllAnswered(ws: seq<World>, steps: seq<Step>, i: nat, c: CallId)
    requires Run(ws, steps) && i < |ws|
  {
    forall k | 0 <= k < i :: Answered(ws[k], steps[k], c)
  }

  lemma {:induction false} OutcomeHolds(ws: seq<World>, steps: seq<Step>, i: nat, c: CallId)
    requires Run(ws, steps) && i < |ws| && AllAnswered(ws, steps, i, c) && c in ws[i].usedCalls
    ensures OutcomeFits(ws[i], c)
  {
    if i > 0 {
      RunKeepsInv(ws, steps, i - 1);
      if c in ws[i - 1].usedCalls {
        OutcomeHolds(ws, steps, i - 1, c);
        assert Answered(ws[i - 1], steps[i - 1], c);
        StepKeepsOutcome(ws[i - 1], steps[i - 1], c);
      } else {
        OnlyInvokeUses(ws[i - 1], steps[i - 1], c);
      }
    }
  }

  /**
   As long as the invocation's own database calls answer and the session is not
   revoked, no recorded decision is lost: the waiter is not taken away, the wait is
   left only with the decision, by the channel or by the abort that lost, and a call
   is failed only after it was approved and started.
   */
  lemma WaitIsLeftWithTheDecision(ws: seq<World>, steps: seq<Step>, i: nat, c: CallId)
    requires Run(ws, steps) && i < |ws| && AllAnswered(ws, steps, i, c)
    requires c in ws[i].invokes && Unrevoked(ws[i], ws[i].invokes[c].session)
    requires c in ws[i].db.calls && ws[i].db.calls[c].decision.Some?
    ensures var row, pc := ws[i].db.calls[c], ws[i].invokes[c].pc;
            && !pc.Unregister?
            && (pc.Leave? ==> pc.result == row.decision)
            && (pc.Finish? && pc.want.Failed? ==> row.decision.value.Approves() && !row.status.Pending?)
            && (c in ws[i].acks ==> row.decision == Some(ws[i].acks[c]))
  {
    RunKeepsInv(ws, steps, i);
    assert InvokeFits(ws[i], c);
    OutcomeHolds(ws, steps, i, c);
  }

  lemma UnregisteringIsReachable()
    ensures Reachable(Sample(Call(3, Pending, Some(ApproveOnce), None, None, None), true, Unregister,
                             Some(Wait(3, 2, Some(ApproveOnce))), map[], map[4 := ApproveOnce]))
  {
    NoticeIsReachable();
    var decided, wait := Call(3, Pending, Some(ApproveOnce), None, None, None), Some(Wait(3, 2, Some(ApproveOnce)));
    var w := Sample(decided, true, Reconcile, wait, map[], map[4 := ApproveOnce]);
    var own := Advance(4, LostBefore, false, "", 0, 0);
    ReachableStep(w, own);
    assert Take(w, own) == Sample(decided, true, Unregister, wait, map[], map[4 := ApproveOnce]);
  }

  /** A lookup that does not answer loses an acknowledged decision: the waiter is removed and the call is failed. */
  lemma FailedLookupLosesTheDecision()
    ensures exists w: World, c :: && Reachable(w) && c in w.acks && w.acks[c].Approves() && c in w.invokes && c !in w.waits
                                  && w.invokes[c].pc == FAIL && Unrevoked(w, w.invokes[c].session)
                                  && c in w.db.calls && w.db.calls[c].status.Pending?
  {
    UnregisteringIsReachable();
    var w := Sample(Call(3, Pending, Some(ApproveOnce), None, None, None), true, Unregister,
                    Some(Wait(3, 2, Some(ApproveOnce))), map[], map[4 := ApproveOnce]);
    var own := Advance(4, LostBefore, false, "", 0, 0);
    ReachableStep(w, own);
    assert Take(w, own).invokes[4].pc == FAIL && 4 !in Take(w, own).waits;
  }
}
