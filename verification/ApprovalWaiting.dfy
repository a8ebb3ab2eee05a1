/**
 What can go wrong between registering a waiter and leaving the wait: exactly
 when the registration blocks, and that a decision is lost only to a failed
 database call.
 */
module ApprovalWaiting {
  import opened Base
  import opened Schema
  import opened SchemaInvariant
  import opened Approval
  import opened ApprovalInvariant
  import opened ApprovalAdvance
  import opened ApprovalTheorems
  import opened Witness

  // ---------------------------------------------------------------------------
  // A registration that never returns

  /** The invocation is about to put a decision into a channel that already holds one. */
  predicate Blocked(w: World, c: CallId) {
    c in w.invokes && w.invokes[c].pc.Deliver? && c in w.waits && w.waits[c].mail.Some?
  }

  lemma BlockedStays(w: World, s: Step, c: CallId)
    requires Enabled(w, s) && Blocked(w, c) && InvokeFits(w, c) && c in w.usedCalls
    ensures Blocked(Take(w, s), c)
  {
    match s
    case Release(sid) => assert w.waits[c].session != sid;
    case Advance(cid, io, arm, text, exit, now) => assert cid != c;
    case _ =>
  }

  /** A blocked registration blocks for good: cancelling the turn does not free it. */
  lemma {:induction false} BlockedForever(ws: seq<World>, steps: seq<Step>, i: nat, j: nat, c: CallId)
    requires Run(ws, steps) && i <= j < |ws| && Blocked(ws[i], c)
    ensures Blocked(ws[j], c)
  {
    if i < j {
      BlockedForever(ws, steps, i, j - 1, c);
      RunKeepsInv(ws, steps, j - 1);
      assert InvokeFits(ws[j - 1], c);
      BlockedStays(ws[j - 1], steps[j - 1], c);
    }
  }

  // ---------------------------------------------------------------------------
  // Exactly when a registration blocks

  predicate Unrevoked(w: World, sid: SessionId) {
    sid in w.db.sessions && !w.db.sessions[sid].state.Revoked?
  }

  predicate HasMail(w: World, c: CallId) {
    c in w.waits && w.waits[c].mail.Some?
  }

  /**
   Somebody's decision is handed to the waiter, or still can be.  Before the lookup
   that takes an unrevoked session whose call is undecided, or decided by someone
   who has not looked for the waiter yet; after the lookup the decider has to be
   still on the way, and not yet stopped by a tombstone.
   */
  ghost predicate Exposed(w: World, c: CallId) {
    && c in w.invokes
    && var v := w.invokes[c];
    match v.pc
    case Register | Reconcile =>
      && c in w.db.calls && Unrevoked(w, v.session)
      && (w.db.calls[c].decision.None? || Heard(w, c) || HasMail(w, c))
    case Deliver(_) => HasMail(w, c) || (Heard(w, c) && v.session !in w.tombs)
    case _ => false
  }

  predicate PastCreate(w: World, c: CallId) {
    c in w.usedCalls && (c in w.invokes ==> !w.invokes[c].pc.Create?)
  }

  /** Somebody else's step: the invocation and its waiter stay, and nothing new is on its way to it. */
  ghost predicate Aloof(w: World, w': World, c: CallId) {
    && w.usedCalls <= w'.usedCalls && w.tombs <= w'.tombs
    && (c in w.invokes <==> c in w'.invokes)
    && (c in w.invokes ==>
          && w'.invokes[c] == w.invokes[c]
          && (Unrevoked(w', w.invokes[c].session) ==> Unrevoked(w, w.invokes[c].session))
          && (HasMail(w', c) ==> HasMail(w, c)) && (Heard(w', c) ==> Heard(w, c))
          && (c in w.db.calls && c in w'.db.calls && w'.db.calls[c].decision.None? ==> w.db.calls[c].decision.None?)
          && (c in w'.db.calls ==> c in w.db.calls))
  }

  lemma AloofStaysSafe(w: World, w': World, c: CallId)
    requires Aloof(w, w', c) && PastCreate(w, c) && !Exposed(w, c)
    ensures PastCreate(w', c) && !Exposed(w', c)
  {
  }

  lemma ExternalIsAloof(w: World, st: Statement, c: CallId)
    requires Inv(w) && ExternalStatement(w, st) && PastCreate(w, c)
    ensures Aloof(w, DoExternal(w, st), c)
  {
    StatementEvolves(w.db, st);
    assert Heard(DoExternal(w, st), c) == Heard(w, c);
    if c in w.invokes {
      assert InvokeFits(w, c);
      if c in DoExternal(w, st).db.calls {
        ExternalLeavesDecision(w.db, st, c);
      }
    }
  }

  lemma TombstoneIsAloof(w: World, sid: SessionId, c: CallId)
    ensures Aloof(w, w.(tombs := w.tombs + {sid}), c)
  {
    assert Heard(w.(tombs := w.tombs + {sid}), c) == Heard(w, c);
  }

  lemma OnlySessionIsAloof(w: World, w': World, sid: SessionId, c: CallId)
    requires OnlySession(w, w', sid) && (c in w.invokes ==> InvokeFits(w, c))
    ensures Aloof(w, w', c)
  {
    assert Heard(w', c) == Heard(w, c);
  }

  predicate TurnStep(s: Step) {
    s.Reserve? || s.Begin? || s.Reread? || s.Settle? || s.Release?
  }

  lemma TurnStepIsOnlySession(w: World, s: Step)
    requires Enabled(w, s) && TurnStep(s) && (forall c <- w.invokes :: w.invokes[c].session != s.sid)
    requires s.Release? ==> DoRelease(w, s.sid).waits == w.waits
    ensures OnlySession(w, Take(w, s), s.sid)
  {
  }

  lemma TurnStepIsAloof(w: World, s: Step, c: CallId)
    requires Inv(w) && Enabled(w, s) && TurnStep(s)
    ensures Aloof(w, Take(w, s), c)
  {
    assert OnlySession(w, Take(w, s), s.sid) by {
      if s.Release? {
        ReleaseKeepsInv(w, s.sid);
      }
      TurnStepHasNoInvocation(w, s);
      TurnStepIsOnlySession(w, s);
    }
    assert c in w.invokes ==> InvokeFits(w, c);
    OnlySessionIsAloof(w, Take(w, s), s.sid, c);
  }

  lemma TurnStepHasNoInvocation(w: World, s: Step)
    requires Inv(w) && Enabled(w, s) && TurnStep(s)
    ensures forall c <- w.invokes :: w.invokes[c].session != s.sid
  {
    assert s.sid in w.turns ==> TurnFits(w, s.sid);
    NoInvocation(w, s.sid);
  }

  lemma InvokeIsAloof(w: World, sid: SessionId, cid: CallId, c: CallId)
    requires MayInvoke(w, sid, cid) && c in w.usedCalls
    ensures Aloof(w, DoInvoke(w, sid, cid), c)
  {
    assert Heard(DoInvoke(w, sid, cid), c) == Heard(w, c);
  }

  lemma OtherAdvanceIsAloof(w: World, k: CallId, m: Move, c: CallId)
    requires k in w.invokes && w.invokes[k].session in w.turns && DbMoved(w.db, m.db, w.invokes[k].session, k) && k != c
    requires c in w.usedCalls && (c in w.invokes ==> InvokeFits(w, c))
    ensures Aloof(w, DoAdvance(w, k, m), c)
  {
    assert Heard(DoAdvance(w, k, m), c) == Heard(w, c);
  }

  lemma DecideCommitStaysSafe(w: World, user: UserId, cid: CallId, decision: Decision, io: Io, notice: int, c: CallId)
    requires Inv(w) && notice !in w.notices && PastCreate(w, c) && !Exposed(w, c)
    ensures var w' := DoDecideCommit(w, user, cid, decision, io, notice); PastCreate(w', c) && !Exposed(w', c)
  {
    var w' := DoDecideCommit(w, user, cid, decision, io, notice);
    if w' != w && c in w.invokes {
      assert InvokeFits(w, c);
      if c != cid {
        assert Heard(w', c) ==> Heard(w, c);
        AloofStaysSafe(w, w', c);
      }
    }
  }

  lemma NotifyStaysSafe(w: World, notice: int, c: CallId)
    requires Inv(w) && notice in w.notices && PastCreate(w, c) && !Exposed(w, c)
    ensures var w' := DoDecideNotify(w, notice); PastCreate(w', c) && !Exposed(w', c)
  {
    var w' := DoDecideNotify(w, notice);
    assert NoticeFits(w, notice);
    if c in w.invokes {
      assert InvokeFits(w, c);
      assert w.notices[notice].call == c ==> Heard(w, c);
      assert Heard(w', c) ==> Heard(w, c);
      if w.notices[notice].call != c {
        AloofStaysSafe(w, w', c);
      }
    }
  }

  predicate Registering(pc: Pc) {
    pc.Register? || pc.Reconcile? || pc.Deliver?
  }

  lemma RegistersOnce(w: World, c: CallId, io: Io, arm: bool, text: string, exit: int, now: Time)
    requires CanMove(w, c, arm) && !Registering(w.invokes[c].pc) && !w.invokes[c].pc.Create?
    ensures var pc := MoveOf(w, c, io, arm, text, exit, now).pc; !Registering(pc) && !pc.Create?
  {
    if w.invokes[c].pc.Finish? {
      FinishingIsLast(w, c, io, arm, text, exit, now);
    }
  }

  lemma FinishingIsLast(w: World, c: CallId, io: Io, arm: bool, text: string, exit: int, now: Time)
    requires CanMove(w, c, arm) && w.invokes[c].pc.Finish?
    ensures var pc := MoveOf(w, c, io, arm, text, exit, now).pc; pc.Finish? || pc.Finished?
  {
  }

  lemma RegisteringStaysSafe(w: World, c: CallId, io: Io, arm: bool)
    requires CanMove(w, c, arm) && Registering(w.invokes[c].pc) && InvokeFits(w, c) && c in w.usedCalls && !Exposed(w, c)
    ensures !Exposed(DoAdvance(w, c, RegisterMove(w, c, io, arm)), c)
    ensures !RegisterMove(w, c, io, arm).pc.Create?
  {
    assert Heard(DoAdvance(w, c, RegisterMove(w, c, io, arm)), c) == Heard(w, c);
  }

  lemma OwnAdvanceStaysSafe(w: World, c: CallId, io: Io, arm: bool, text: string, exit: int, now: Time)
    requires CanMove(w, c, arm) && InvokeFits(w, c) && PastCreate(w, c) && !Exposed(w, c)
    ensures var w' := DoAdvance(w, c, MoveOf(w, c, io, arm, text, exit, now)); PastCreate(w', c) && !Exposed(w', c)
  {
    if Registering(w.invokes[c].pc) {
      RegisteringStaysSafe(w, c, io, arm);
    } else {
      RegistersOnce(w, c, io, arm, text, exit, now);
    }
  }

  lemma StepStaysSafe(w: World, s: Step, c: CallId)
    requires Inv(w) && Enabled(w, s) && PastCreate(w, c) && !Exposed(w, c)
    ensures PastCreate(Take(w, s), c) && !Exposed(Take(w, s), c)
  {
    match s
    case External(st) =>
      ExternalIsAloof(w, st, c);
      AloofStaysSafe(w, Take(w, s), c);
    case Tombstone(sid) =>
      TombstoneIsAloof(w, sid, c);
      AloofStaysSafe(w, Take(w, s), c);
    case DecideCommit(user, cid, decision, io, notice) => DecideCommitStaysSafe(w, user, cid, decision, io, notice, c);
    case DecideNotify(notice) => NotifyStaysSafe(w, notice, c);
    case Invoke(sid, cid) =>
      InvokeIsAloof(w, sid, cid, c);
      AloofStaysSafe(w, Take(w, s), c);
    case Advance(k, io, arm, text, exit, now) =>
      assert c in w.invokes ==> InvokeFits(w, c);
      if k == c {
        OwnAdvanceStaysSafe(w, c, io, arm, text, exit, now);
      } else {
        MovesDb(w, k, io, arm, text, exit, now);
        OtherAdvanceIsAloof(w, k, MoveOf(w, k, io, arm, text, exit, now), c);
        AloofStaysSafe(w, Take(w, s), c);
      }
    case _ =>
      TurnStepIsAloof(w, s, c);
      AloofStaysSafe(w, Take(w, s), c);
  }

  /** Taking the steps one after another leads from `w` to `z`. */
  ghost predicate Path(w: World, steps: seq<Step>, z: World)
    decreases |steps|
  {
    if steps == [] then w == z
    else Enabled(w, steps[0]) && Path(Take(w, steps[0]), steps[1..], z)
  }

  /** Some continuation blocks the registration for good. */
  ghost predicate CanBlock(w: World, c: CallId) {
    exists steps, z :: Path(w, steps, z) && Blocked(z, c)
  }

  lemma {:induction false} PathStaysSafe(w: World, steps: seq<Step>, z: World, c: CallId)
    requires Path(w, steps, z) && Inv(w) && PastCreate(w, c) && !Exposed(w, c)
    ensures !Exposed(z, c)
    decreases |steps|
  {
    if steps != [] {
      StepStaysSafe(w, steps[0], c);
      StepKeepsInv(w, steps[0]);
      PathStaysSafe(Take(w, steps[0]), steps[1..], z, c);
    }
  }

  lemma CanBlockEarlier(w: World, s: Step, c: CallId)
    requires Enabled(w, s) && CanBlock(Take(w, s), c)
    ensures CanBlock(w, c)
  {
    var steps, z :| Path(Take(w, s), steps, z) && Blocked(z, c);
    assert ([s] + steps)[1..] == steps;
    assert Path(w, [s] + steps, z);
  }

  lemma BlockedCanBlock(w: World, c: CallId)
    requires Blocked(w, c)
    ensures CanBlock(w, c)
  {
    assert Path(w, [], w);
  }

  /** The invocation's own session is in use, so while it is not revoked its user finds the call. */
  lemma CallIsVisible(w: World, c: CallId)
    requires Inv(w) && c in w.invokes && !w.invokes[c].pc.Create? && Unrevoked(w, w.invokes[c].session)
    ensures CallVisible(w.db, w.invokes[c].user, c)
  {
    assert InvokeFits(w, c) && TurnFits(w, w.invokes[c].session);
    OwnerPredicateIsSessionState(w.db, w.invokes[c].user, w.invokes[c].session);
  }

  /** The hand-over came first: the lookup finds the decision and the channel is full. */
  lemma MailBeforeLookup(w: World, c: CallId)
    requires Inv(w) && c in w.invokes && w.invokes[c].pc.Reconcile? && Unrevoked(w, w.invokes[c].session) && HasMail(w, c)
    ensures CanBlock(w, c)
  {
    assert InvokeFits(w, c);
    CallIsVisible(w, c);
    var s := Advance(c, Ok, false, "", 0, 0);
    assert Blocked(Take(w, s), c);
    BlockedCanBlock(Take(w, s), c);
    CanBlockEarlier(w, s, c);
  }

  lemma NoticeFills(w: World, n: int, c: CallId)
    requires Inv(w) && n in w.notices && w.notices[n].call == c && c in w.invokes && InWait(w.invokes[c].pc)
    requires w.invokes[c].session !in w.tombs
    ensures var z := DoDecideNotify(w, n);
            HasMail(z, c) && z.invokes == w.invokes && z.db == w.db && z.tombs == w.tombs
  {
    assert NoticeFits(w, n) && InvokeFits(w, c) && TurnFits(w, w.invokes[c].session);
  }

  /** The lookup came first: the invocation is about to send when the hand-over fills the channel. */
  lemma NoticeAfterLookup(w: World, n: int, c: CallId)
    requires Inv(w) && n in w.notices && w.notices[n].call == c && c in w.invokes && w.invokes[c].pc.Deliver?
    requires w.invokes[c].session !in w.tombs
    ensures CanBlock(w, c)
  {
    NoticeFills(w, n, c);
    BlockedCanBlock(Take(w, DecideNotify(n)), c);
    CanBlockEarlier(w, DecideNotify(n), c);
  }

  lemma NoticeBeforeLookup(w: World, n: int, c: CallId)
    requires Inv(w) && n in w.notices && w.notices[n].call == c && c in w.invokes && w.invokes[c].pc.Reconcile?
    requires Unrevoked(w, w.invokes[c].session)
    ensures CanBlock(w, c)
  {
    NoticeFills(w, n, c);
    StepKeepsInv(w, DecideNotify(n));
    MailBeforeLookup(Take(w, DecideNotify(n)), c);
    CanBlockEarlier(w, DecideNotify(n), c);
  }

  lemma Unused(s: set<int>) returns (n: int)
    ensures n !in s
  {
    n := 0;
    var rest := s;
    while rest != {}
      invariant rest <= s && forall k <- s :: k in rest || k < n
      decreases |rest|
    {
      var k := Member(rest);
      n := if n <= k then k + 1 else n;
      rest := rest - {k};
    }
  }

  lemma DecidingNotifies(w: World, n: int, c: CallId)
    requires Inv(w) && n !in w.notices && c in w.invokes && w.invokes[c].pc.Reconcile? && Unrevoked(w, w.invokes[c].session)
    requires w.db.calls[c].decision.None?
    ensures var z := DoDecideCommit(w, w.invokes[c].user, c, ApproveOnce, Ok, n);
            n in z.notices && z.notices[n].call == c && z.invokes == w.invokes && Unrevoked(z, w.invokes[c].session)
  {
    assert InvokeFits(w, c);
    CallIsVisible(w, c);
  }

  lemma UndecidedCanBlock(w: World, c: CallId)
    requires Inv(w) && c in w.invokes && w.invokes[c].pc.Reconcile? && c in w.db.calls && Unrevoked(w, w.invokes[c].session)
    requires w.db.calls[c].decision.None?
    ensures CanBlock(w, c)
  {
    var n := Unused(w.notices.Keys);
    var s := DecideCommit(w.invokes[c].user, c, ApproveOnce, Ok, n);
    DecidingNotifies(w, n, c);
    StepKeepsInv(w, s);
    NoticeBeforeLookup(Take(w, s), n, c);
    CanBlockEarlier(w, s, c);
  }

  lemma ReconcilingCanBlock(w: World, c: CallId)
    requires Inv(w) && c in w.invokes && w.invokes[c].pc.Reconcile? && Exposed(w, c)
    ensures CanBlock(w, c)
  {
    if HasMail(w, c) {
      MailBeforeLookup(w, c);
    } else if w.db.calls[c].decision.None? {
      UndecidedCanBlock(w, c);
    } else {
      var n :| n in w.notices && w.notices[n].call == c;
      NoticeBeforeLookup(w, n, c);
    }
  }

  lemma RegisteringIsReconciling(w: World, c: CallId)
    requires Inv(w) && c in w.invokes && w.invokes[c].pc.Register? && Exposed(w, c)
    ensures var s := Advance(c, Ok, false, "", 0, 0);
            && Enabled(w, s) && c in Take(w, s).invokes
            && Take(w, s).invokes[c].pc.Reconcile? && Exposed(Take(w, s), c)
  {
    assert InvokeFits(w, c);
    var z := Take(w, Advance(c, Ok, false, "", 0, 0));
    assert Heard(z, c) == Heard(w, c);
  }

  lemma ExposedCanBlock(w: World, c: CallId)
    requires Inv(w) && Exposed(w, c)
    ensures CanBlock(w, c)
  {
    var v := w.invokes[c];
    if v.pc.Register? {
      var s := Advance(c, Ok, false, "", 0, 0);
      RegisteringIsReconciling(w, c);
      StepKeepsInv(w, s);
      ReconcilingCanBlock(Take(w, s), c);
      CanBlockEarlier(w, s, c);
    } else if v.pc.Reconcile? {
      ReconcilingCanBlock(w, c);
    } else if HasMail(w, c) {
      BlockedCanBlock(w, c);
    } else {
      var n :| n in w.notices && w.notices[n].call == c;
      NoticeAfterLookup(w, n, c);
    }
  }

  /** From the moment it may register, an invocation can come to block for good exactly while it is exposed. */
  lemma RegistrationBlocksIff(ws: seq<World>, steps: seq<Step>, i: nat, c: CallId)
    requires Run(ws, steps) && i < |ws| && c in ws[i].invokes && !ws[i].invokes[c].pc.Create?
    ensures CanBlock(ws[i], c) <==> Exposed(ws[i], c)
  {
    RunKeepsInv(ws, steps, i);
    if Exposed(ws[i], c) {
      ExposedCanBlock(ws[i], c);
    } else if CanBlock(ws[i], c) {
      var more, z :| Path(ws[i], more, z) && Blocked(z, c);
      PathStaysSafe(ws[i], more, z, c);
    }
  }

  ghost predicate Reachable(w: World) {
    exists ws: seq<World>, steps: seq<Step> :: Run(ws, steps) && ws[|ws| - 1] == w
  }

  lemma ReachableStep(w: World, s: Step)
    requires Reachable(w) && Enabled(w, s)
    ensures Reachable(Take(w, s))
  {
    var ws: seq<World>, steps: seq<Step> :| Run(ws, steps) && ws[|ws| - 1] == w;
    var more, and := ws + [Take(w, s)], steps + [s];
    forall i | 0 <= i < |and| ensures Enabled(more[i], and[i]) && more[i + 1] == Take(more[i], and[i]) {
      if i < |steps| {
        assert more[i] == ws[i] && more[i + 1] == ws[i + 1] && and[i] == steps[i];
      }
    }
    assert Run(more, and);
  }

  /** A world with one owned device, one session and at most one call, in the middle of its first turn. */
  function Sample(row: Call, calls: bool, pc: Pc, wait: Option<Wait>, notices: map<int, Notice>,
                  acks: map<CallId, Decision>): World
  {
    World(Opened(Session(2, 1, PerCommand, Running, None), if calls then map[4 := row] else map[]),
          map[3 := Turn(2, Active, PerCommand, Some(4))], if wait.Some? then map[4 := wait.value] else map[], {},
          map[4 := Invocation(3, 2, pc)], notices, {3}, {4}, {}, acks, [])
  }

  /** The same world before its call, with the session and its turn at the given points. */
  function Before(state: SessionState, turns: map<SessionId, Turn>): World {
    World(Opened(Session(2, 1, PerCommand, state, None), map[]),
          turns, map[], {}, map[], map[], {3}, {}, {}, map[], [])
  }

  function Quiescent(db: Tables): World {
    World(db, map[], map[], {}, map[], map[], {}, {}, {}, map[], [])
  }

  lemma ClaimIsReachable()
    ensures Reachable(Quiescent(CLAIMED))
  {
    var w0 := Quiescent(EMPTY);
    assert Run([w0], []);
    assert [w0][|[w0]| - 1] == w0;
    Pairs();
    Claims();
    ReachableStep(w0, External(REGISTER));
    ReachableStep(Quiescent(REGISTERED), External(OFFER));
    ReachableStep(Quiescent(OFFERED), External(CLAIM));
  }

  lemma SessionIsReachable()
    ensures Reachable(Before(Idle, map[]))
  {
    ClaimIsReachable();
    Opens();
    ReachableStep(Quiescent(CLAIMED), External(OPEN));
    assert Take(Quiescent(CLAIMED), External(OPEN)) == Before(Idle, map[]);
  }

  lemma TurnIsReachable()
    ensures Reachable(Before(Running, map[3 := Turn(2, Active, PerCommand, None)]))
  {
    SessionIsReachable();
    var w2, w3 := Before(Idle, map[]), Before(Idle, map[3 := Turn(2, Reserved, PerCommand, None)]);
    ReachableStep(w2, Reserve(3, 2));
    assert Take(w2, Reserve(3, 2)) == w3;
    var w4 := Before(Running, map[3 := Turn(2, Begun, PerCommand, None)]);
    ReachableStep(w3, Begin(3, Ok));
    assert Take(w3, Begin(3, Ok)) == w4;
    ReachableStep(w4, Reread(3, Ok));
    assert Take(w4, Reread(3, Ok)) == Before(Running, map[3 := Turn(2, Active, PerCommand, None)]);
  }

  lemma InvocationIsReachable()
    ensures Reachable(Sample(Call(3, Pending, None, None, None, None), false, Create(false), None, map[], map[]))
  {
    TurnIsReachable();
    var w5 := Before(Running, map[3 := Turn(2, Active, PerCommand, None)]);
    ReachableStep(w5, Invoke(3, 4));
    assert Take(w5, Invoke(3, 4)) == Sample(Call(3, Pending, None, None, None, None), false, Create(false), None, map[], map[]);
  }

  lemma CallIsReachable()
    ensures Reachable(Sample(Call(3, Pending, None, None, None, None), true, Register, None, map[], map[]))
  {
    InvocationIsReachable();
    var row := Call(3, Pending, None, None, None, None);
    var w6 := Sample(row, false, Create(false), None, map[], map[]);
    var own := Advance(4, Ok, false, "", 0, 0);
    ReachableStep(w6, own);
    assert Take(w6, own) == Sample(row, true, Register, None, map[], map[]);
  }

  lemma RegistrationIsReachable()
    ensures Reachable(Sample(Call(3, Pending, None, None, None, None), true, Reconcile, Some(Wait(3, 2, None)), map[], map[]))
  {
    CallIsReachable();
    var row := Call(3, Pending, None, None, None, None);
    var w7 := Sample(row, true, Register, None, map[], map[]);
    var own := Advance(4, Ok, false, "", 0, 0);
    ReachableStep(w7, own);
    assert Take(w7, own) == Sample(row, true, Reconcile, Some(Wait(3, 2, None)), map[], map[]);
  }

  lemma DecisionIsReachable()
    ensures Reachable(Sample(Call(3, Pending, Some(ApproveOnce), None, None, None), true, Reconcile, Some(Wait(3, 2, None)),
                             map[0 := Notice(4, 3, 2, ApproveOnce)], map[]))
  {
    RegistrationIsReachable();
    var row := Call(3, Pending, None, None, None, None);
    var w8 := Sample(row, true, Reconcile, Some(Wait(3, 2, None)), map[], map[]);
    ReachableStep(w8, DecideCommit(2, 4, ApproveOnce, Ok, 0));
    assert Take(w8, DecideCommit(2, 4, ApproveOnce, Ok, 0)) ==
           Sample(row.(decision := Some(ApproveOnce)), true, Reconcile, Some(Wait(3, 2, None)),
                  map[0 := Notice(4, 3, 2, ApproveOnce)], map[]);
  }

  lemma NoticeIsReachable()
    ensures Reachable(Sample(Call(3, Pending, Some(ApproveOnce), None, None, None), true, Reconcile,
                             Some(Wait(3, 2, Some(ApproveOnce))), map[], map[4 := ApproveOnce]))
  {
    DecisionIsReachable();
    var decided := Call(3, Pending, Some(ApproveOnce), None, None, None);
    var w9 := Sample(decided, true, Reconcile, Some(Wait(3, 2, None)), map[0 := Notice(4, 3, 2, ApproveOnce)], map[]);
    ReachableStep(w9, DecideNotify(0));
    assert Take(w9, DecideNotify(0)) ==
           Sample(decided, true, Reconcile, Some(Wait(3, 2, Some(ApproveOnce))), map[], map[4 := ApproveOnce]);
  }

  /** The blocked state does occur. */
  lemma BlockedIsReachable()
    ensures exists w, c :: Reachable(w) && Blocked(w, c)
  {
    NoticeIsReachable();
    var w10 := Sample(Call(3, Pending, Some(ApproveOnce), None, None, None), true, Reconcile,
                      Some(Wait(3, 2, Some(ApproveOnce))), map[], map[4 := ApproveOnce]);
    var own := Advance(4, Ok, false, "", 0, 0);
    ReachableStep(w10, own);
    assert Blocked(Take(w10, own), 4);
  }

  lemma SenderIsReachable()
    ensures Reachable(Sample(Call(3, Pending, Some(ApproveOnce), None, None, None), true, Deliver(ApproveOnce), Some(Wait(3, 2, None)),
                             map[0 := Notice(4, 3, 2, ApproveOnce)], map[]))
  {
    DecisionIsReachable();
    var decided, notices := Call(3, Pending, Some(ApproveOnce), None, None, None), map[0 := Notice(4, 3, 2, ApproveOnce)];
    var w9 := Sample(decided, true, Reconcile, Some(Wait(3, 2, None)), notices, map[]);
    var own := Advance(4, Ok, false, "", 0, 0);
    ReachableStep(w9, own);
    assert Take(w9, own) == Sample(decided, true, Deliver(ApproveOnce), Some(Wait(3, 2, None)), notices, map[]);
  }

  /** The other order occurs as well: the lookup finds an empty channel, and the hand-over fills it before the send. */
  lemma LateHandoverBlocks()
    ensures exists w, n, c :: && Reachable(w) && n in w.notices && c in w.invokes && w.invokes[c].pc.Deliver?
                              && !HasMail(w, c) && Blocked(Take(w, DecideNotify(n)), c)
  {
    SenderIsReachable();
    var w := Sample(Call(3, Pending, Some(ApproveOnce), None, None, None), true, Deliver(ApproveOnce), Some(Wait(3, 2, None)),
                    map[0 := Notice(4, 3, 2, ApproveOnce)], map[]);
    assert 0 in w.notices && !HasMail(w, 4) && Blocked(Take(w, DecideNotify(0)), 4);
  }
}
