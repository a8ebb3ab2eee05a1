/**
 The relational invariant of the tables, kept by every statement, and what it
 says about whole histories of statements: ownership, pairing codes, revoked
 sessions and terminal tool calls.
 */
module SchemaInvariant {
  import opened Base
  import opened Schema

  datatype Statement =
    | DoRegister(device: DeviceId, publicKey: int, profile: int)
    | DoCreateCode(code: CodeId, device: DeviceId, digest: int, expiresAt: Time, now: Time)
    | DoClaim(user: UserId, digest: int, now: Time)
    | DoUnpair(user: UserId, device: DeviceId, now: Time)
    | DoCreateSession(sid: SessionId, user: UserId, device: DeviceId, mode: ApprovalMode)
    | DoSetMode(user: UserId, sid: SessionId, mode: ApprovalMode)
    | DoSetArchived(user: UserId, sid: SessionId, at: Option<Time>)
    | DoDeleteSession(user: UserId, sid: SessionId)
    | DoSetState(user: UserId, sid: SessionId, state: SessionState)
    | DoBeginTurn(user: UserId, sid: SessionId)
    | DoCreateCall(user: UserId, cid: CallId, sid: SessionId, status: CallStatus)
    | DoDecide(user: UserId, cid: CallId, decision: Decision)
    | DoFailPending(user: UserId, cid: CallId, text: string, now: Time)
    | DoStart(user: UserId, cid: CallId)
    | DoFinish(user: UserId, cid: CallId, status: CallStatus, exitCode: Option<int>, excerpt: Option<string>, now: Time)

  /** The row a lookup by digest selects. */
  ghost function CodeFor(t: Tables, digest: int): (code: Option<CodeId>)
    ensures code.Some? ==> HasDigest(t, digest, code.value)
    ensures code.None? ==> forall k :: !HasDigest(t, digest, k)
  {
    if k :| HasDigest(t, digest, k) then Some(k) else None
  }

  ghost function Apply(t: Tables, st: Statement): Outcome {
    match st
    case DoRegister(device, publicKey, profile) => RegisterDevice(t, device, Device(publicKey, None, profile, None))
    case DoCreateCode(code, device, digest, expiresAt, now) => CreateCode(t, code, device, digest, expiresAt, now)
    case DoClaim(user, digest, now) => Claim(t, user, CodeFor(t, digest), now)
    case DoUnpair(user, device, now) => Unpair(t, user, device, now)
    case DoCreateSession(sid, user, device, mode) => CreateSession(t, sid, user, device, mode)
    case DoSetMode(user, sid, mode) => SetMode(t, user, sid, mode)
    case DoSetArchived(user, sid, at) => SetArchived(t, user, sid, at)
    case DoDeleteSession(user, sid) => DeleteSession(t, user, sid)
    case DoSetState(user, sid, state) => SetState(t, user, sid, state)
    case DoBeginTurn(user, sid) => BeginTurn(t, user, sid)
    case DoCreateCall(user, cid, sid, status) => CreateCall(t, user, cid, sid, status)
    case DoDecide(user, cid, decision) => Decide(t, user, cid, decision)
    case DoFailPending(user, cid, text, now) => FailPending(t, user, cid, text, now)
    case DoStart(user, cid) => StartCall(t, user, cid)
    case DoFinish(user, cid, status, exitCode, excerpt, now) => FinishCall(t, user, cid, status, exitCode, excerpt, now)
  }

  // ---------------------------------------------------------------------------
  // The invariant

  ghost predicate ForeignKeys(t: Tables) {
    && (forall s <- t.sessions :: t.sessions[s].device in t.devices)
    && (forall c <- t.calls :: t.calls[c].session in t.sessions)
    && (forall k <- t.codes :: t.codes[k].device in t.devices)
  }

  /** A session that is not revoked sits on a device its user owns. */
  ghost predicate OwnersAgree(t: Tables)
    requires ForeignKeys(t)
  {
    forall s <- t.sessions :: t.sessions[s].state != Revoked ==>
      t.devices[t.sessions[s].device].owner == Some(t.sessions[s].user)
  }

  ghost predicate CodesAgree(t: Tables)
    requires ForeignKeys(t)
  {
    && (forall k <- t.codes :: t.codes[k].consumedAt.None? ==> t.devices[t.codes[k].device].owner.None?)
    && (forall j <- t.codes, k <- t.codes ::
          t.codes[j].consumedAt.None? && t.codes[k].consumedAt.None? && t.codes[j].device == t.codes[k].device ==> j == k)
    && (forall j <- t.codes, k <- t.codes :: t.codes[j].digest == t.codes[k].digest ==> j == k)
  }

  predicate RowAgrees(row: Call) {
    && (row.completedAt.Some? <==> row.status.Terminal())
    && (row.status.Denied? ==> row.decision == Some(Deny))
    && (row.status.Started? || row.status.Completed? ==> row.decision != Some(Deny))
  }

  /** Tool-call rows are well formed, and a revoked session has no open call. */
  ghost predicate CallsAgree(t: Tables)
    requires ForeignKeys(t)
  {
    && (forall c <- t.calls :: RowAgrees(t.calls[c]))
    && (forall c <- t.calls :: t.sessions[t.calls[c].session].state == Revoked ==> t.calls[c].status.Terminal())
  }

  ghost predicate Consistent(t: Tables) {
    ForeignKeys(t) && OwnersAgree(t) && CodesAgree(t) && CallsAgree(t)
  }

  /** A session row may be replaced by one with the same user, device and revocation. */
  lemma ReplacingSession(t: Tables, sid: SessionId, row: Session)
    requires Consistent(t) && sid in t.sessions
    requires row.user == t.sessions[sid].user && row.device == t.sessions[sid].device
    requires row.state.Revoked? == t.sessions[sid].state.Revoked?
    ensures Consistent(t.(sessions := t.sessions[sid := row]))
  {
  }

  /** A tool call of a session that is not revoked may be written with any well-formed row. */
  lemma WritingCall(t: Tables, cid: CallId, row: Call)
    requires Consistent(t) && RowAgrees(row)
    requires row.session in t.sessions && t.sessions[row.session].state != Revoked
    ensures Consistent(t.(calls := t.calls[cid := row]))
  {
  }

  lemma RegisterKeepsConsistent(t: Tables, device: DeviceId, row: Device)
    requires Consistent(t)
    ensures Consistent(RegisterDevice(t, device, row).tables)
  {
  }

  lemma UnpairKeepsConsistent(t: Tables, user: UserId, device: DeviceId, now: Time)
    requires Consistent(t)
    ensures Consistent(Unpair(t, user, device, now).tables)
  {
  }

  lemma ClaimKeepsConsistent(t: Tables, user: UserId, code: Option<CodeId>, now: Time)
    requires Consistent(t)
    requires code.Some? ==> code.value in t.codes
    ensures Consistent(Claim(t, user, code, now).tables)
    ensures Claim(t, user, code, now).reply != Conflict
  {
    if code.Some? && t.codes[code.value].consumedAt.None? {
      var k := code.value;
      assert t.devices[t.codes[k].device].owner.None?;
      var after := Claim(t, user, code, now).tables;
      assert after.codes.Keys == t.codes.Keys;
      forall j | j in after.codes && after.codes[j].consumedAt.None?
        ensures after.devices[after.codes[j].device].owner.None?
      {
        assert t.codes[j].consumedAt.None?;
      }
    }
  }

  lemma CreateCodeKeepsConsistent(t: Tables, code: CodeId, device: DeviceId, digest: int, expiresAt: Time, now: Time)
    requires Consistent(t)
    ensures Consistent(CreateCode(t, code, device, digest, expiresAt, now).tables)
  {
  }

  lemma SessionStatementKeepsConsistent(t: Tables, st: Statement)
    requires Consistent(t)
    requires st.DoSetMode? || st.DoSetArchived? || st.DoSetState? || st.DoBeginTurn? || st.DoCreateSession?
             || st.DoDeleteSession?
    ensures Consistent(Apply(t, st).tables)
  {
    var after := Apply(t, st).tables;
    if !st.DoCreateSession? && !st.DoDeleteSession? && st.sid in t.sessions && st.sid in after.sessions {
      ReplacingSession(t, st.sid, after.sessions[st.sid]);
      assert t.sessions[st.sid := t.sessions[st.sid]] == t.sessions;
    }
  }

  lemma CallStatementKeepsConsistent(t: Tables, st: Statement)
    requires Consistent(t)
    requires st.DoCreateCall? || st.DoDecide? || st.DoFailPending? || st.DoStart? || st.DoFinish?
    ensures Consistent(Apply(t, st).tables)
  {
    var o := Apply(t, st);
    if o.reply.Done? {
      WritingCall(t, st.cid, o.tables.calls[st.cid]);
      if st.DoDecide? {
        var mid := t.(calls := o.tables.calls);
        var sid := t.calls[st.cid].session;
        ReplacingSession(mid, sid, o.tables.sessions[sid]);
        assert t.sessions[sid := t.sessions[sid]] == t.sessions;
      }
    }
  }

  lemma StatementKeepsConsistent(t: Tables, st: Statement)
    requires Consistent(t)
    ensures Consistent(Apply(t, st).tables)
  {
    match st
    case DoRegister(device, publicKey, profile) => RegisterKeepsConsistent(t, device, Device(publicKey, None, profile, None));
    case DoCreateCode(code, device, digest, expiresAt, now) =>
      CreateCodeKeepsConsistent(t, code, device, digest, expiresAt, now);
    case DoClaim(user, digest, now) => ClaimKeepsConsistent(t, user, CodeFor(t, digest), now);
    case DoUnpair(user, device, now) => UnpairKeepsConsistent(t, user, device, now);
    case _ =>
      if st.DoCreateCall? || st.DoDecide? || st.DoFailPending? || st.DoStart? || st.DoFinish? {
        CallStatementKeepsConsistent(t, st);
      } else {
        SessionStatementKeepsConsistent(t, st);
      }
  }

  /** With the invariant, the device half of the owner predicate follows from the session half. */
  lemma OwnerPredicateIsSessionState(t: Tables, user: UserId, sid: SessionId)
    requires Consistent(t)
    ensures SessionOwned(t, user, sid) <==>
            sid in t.sessions && t.sessions[sid].user == user && t.sessions[sid].state != Revoked
  {
  }

  // ---------------------------------------------------------------------------
  // What one statement may do to a row

  predicate CallEvolves(a: Call, b: Call) {
    && b.session == a.session
    && (a.decision.Some? ==> b.decision == a.decision)
    && (b.decision != a.decision ==> a.status.Pending? && b.status.Pending?)
    && (a.status.Terminal() ==> b == a)
    && (a.status.Started? ==> b.status.Started? || b.status.Completed? || b.status.Failed?)
    && (a.status.Pending? && b.status.Started? ==> b.decision.Some? && b.decision.value.Approves())
    && (a.status.Pending? ==> !b.status.Completed?)
  }

  predicate SessionEvolves(a: Session, b: Session) {
    && b.user == a.user && b.device == a.device
    && (a.state.Revoked? ==> b == a)
  }

  ghost predicate Evolves(t: Tables, t': Tables) {
    && (forall c :: c in t.calls && c in t'.calls ==> CallEvolves(t.calls[c], t'.calls[c]))
    && (forall s :: s in t.sessions && s in t'.sessions ==> SessionEvolves(t.sessions[s], t'.sessions[s]))
    && (forall s <- t.sessions :: t.sessions[s].state.Revoked? ==> s in t'.sessions)
    && (forall d <- t.devices :: d in t'.devices)
    && (forall k <- t.codes :: k in t'.codes && t'.codes[k].digest == t.codes[k].digest
                               && (t.codes[k].consumedAt.Some? ==> t'.codes[k] == t.codes[k]))
  }

  predicate AboutCalls(st: Statement) {
    st.DoCreateCall? || st.DoDecide? || st.DoFailPending? || st.DoStart? || st.DoFinish?
  }

  lemma CallStatementEvolves(t: Tables, st: Statement)
    requires AboutCalls(st)
    ensures Evolves(t, Apply(t, st).tables)
  {
  }

  lemma StatementEvolves(t: Tables, st: Statement)
    ensures Evolves(t, Apply(t, st).tables)
  {
    if AboutCalls(st) {
      CallStatementEvolves(t, st);
    }
  }

  // ---------------------------------------------------------------------------
  // Whole histories

  ghost function Execute(sts: seq<Statement>): Tables {
    if sts == [] then EMPTY else Apply(Execute(sts[..|sts| - 1]), sts[|sts| - 1]).tables
  }

  lemma {:induction false} ReachableIsConsistent(sts: seq<Statement>)
    ensures Consistent(Execute(sts))
  {
    if sts != [] {
      ReachableIsConsistent(sts[..|sts| - 1]);
      StatementKeepsConsistent(Execute(sts[..|sts| - 1]), sts[|sts| - 1]);
    }
  }

  lemma ExecuteOneMore(sts: seq<Statement>, more: seq<Statement>)
    requires more != []
    ensures Execute(sts + more) == Apply(Execute(sts + more[..|more| - 1]), more[|more| - 1]).tables
    ensures Evolves(Execute(sts + more[..|more| - 1]), Execute(sts + more))
  {
    assert (sts + more)[..|sts + more| - 1] == sts + more[..|more| - 1];
    StatementEvolves(Execute(sts + more[..|more| - 1]), more[|more| - 1]);
  }

  /** Nothing that happens later changes a revoked session, pairing the device again included. */
  lemma {:induction false} RevokedForever(sts: seq<Statement>, more: seq<Statement>, sid: SessionId)
    requires sid in Execute(sts).sessions && Execute(sts).sessions[sid].state.Revoked?
    ensures sid in Execute(sts + more).sessions
    ensures Execute(sts + more).sessions[sid] == Execute(sts).sessions[sid]
  {
    if more == [] {
      assert sts + more == sts;
    } else {
      RevokedForever(sts, more[..|more| - 1], sid);
      ExecuteOneMore(sts, more);
    }
  }

  /** A terminal tool call keeps its whole row for as long as the row exists. */
  lemma {:induction false} TerminalForever(sts: seq<Statement>, more: seq<Statement>, cid: CallId)
    requires cid in Execute(sts).calls && Execute(sts).calls[cid].status.Terminal()
    requires forall n | 0 <= n <= |more| :: cid in Execute(sts + more[..n]).calls
    ensures cid in Execute(sts + more).calls && Execute(sts + more).calls[cid] == Execute(sts).calls[cid]
  {
    assert more[..|more|] == more;
    if more == [] {
      assert sts + more == sts;
    } else {
      var fewer := more[..|more| - 1];
      forall n | 0 <= n <= |fewer| ensures cid in Execute(sts + fewer[..n]).calls {
        assert fewer[..n] == more[..n];
      }
      TerminalForever(sts, fewer, cid);
      ExecuteOneMore(sts, more);
      assert fewer[..|fewer|] == fewer;
    }
  }

  /** Unpair leaves the device unowned and codeless, and every session on it, whoever made it, revoked. */
  lemma UnpairRevokesEverySession(sts: seq<Statement>, user: UserId, device: DeviceId, now: Time)
    requires Apply(Execute(sts), DoUnpair(user, device, now)).reply.Done?
    ensures var t := Execute(sts + [DoUnpair(user, device, now)]);
            && device in t.devices && t.devices[device].owner.None?
            && (forall s <- t.sessions :: t.sessions[s].device == device ==> t.sessions[s].state.Revoked?)
            && (forall c <- t.calls :: t.calls[c].session in t.sessions && t.sessions[t.calls[c].session].device == device
                                       ==> t.calls[c].status.Terminal())
            && (forall k <- t.codes :: t.codes[k].device == device ==> t.codes[k].consumedAt.Some?)
  {
    ReachableIsConsistent(sts);
    ReachableIsConsistent(sts + [DoUnpair(user, device, now)]);
    assert (sts + [DoUnpair(user, device, now)])[..|sts|] == sts;
  }

  function OwnerOf(t: Tables, device: DeviceId): Option<UserId> {
    if device in t.devices then t.devices[device].owner else None
  }

  /**
   Ownership changes in two ways only: a claim by the new owner that uses up an
   open code of that device, or an unpair by the owner.  Registration gives none.
   */
  lemma OwnershipChanges(sts: seq<Statement>, st: Statement, device: DeviceId)
    ensures var t, t' := Execute(sts), Execute(sts + [st]);
            && (device in t.devices ==> device in t'.devices)
            && var before, after := OwnerOf(t, device), OwnerOf(t', device);
            before != after ==>
              || (before.None? && st.DoClaim? && after == Some(st.user)
                  && exists k :: HasDigest(t, st.digest, k) && t.codes[k].device == device && t.codes[k].consumedAt.None?
                                 && st.now < t.codes[k].expiresAt && t'.codes[k].consumedAt == Some(st.now))
              || (after.None? && st.DoUnpair? && st.device == device && before == Some(st.user))
  {
    assert (sts + [st])[..|sts|] == sts;
    var t := Execute(sts);
    if st.DoClaim? && Apply(t, st).reply.Done? {
      var k := CodeFor(t, st.digest).value;
      assert HasDigest(t, st.digest, k);
      assert Apply(t, st).tables.codes[k].consumedAt == Some(st.now);
    }
  }

  /** The owner after the first `n` statements. */
  ghost function OwnerAfter(sts: seq<Statement>, n: nat, device: DeviceId): Option<UserId>
    requires n <= |sts|
  {
    OwnerOf(Execute(sts[..n]), device)
  }

  /** The n-th statement is a claim that gave the device to its claimant, who has owned it ever since. */
  ghost predicate OwnedSince(sts: seq<Statement>, n: nat, device: DeviceId) {
    && n < |sts| && sts[n].DoClaim? && OwnerAfter(sts, n, device).None?
    && forall j: nat | n < j <= |sts| :: OwnerAfter(sts, j, device) == Some(sts[n].user)
  }

  lemma OneMoreOwned(sts: seq<Statement>, st: Statement, n: nat, device: DeviceId)
    requires OwnedSince(sts, n, device) && OwnerOf(Execute(sts + [st]), device) == Some(sts[n].user)
    ensures OwnedSince(sts + [st], n, device)
  {
    var more := sts + [st];
    assert more[..|more|] == more && more[..n] == sts[..n];
    forall j: nat | n < j <= |more| ensures OwnerAfter(more, j, device) == Some(sts[n].user) {
      assert j <= |sts| ==> more[..j] == sts[..j] && OwnerAfter(sts, j, device) == Some(sts[n].user);
    }
  }

  /** Every owner came by a claim of their own, and has owned the device ever since. */
  lemma {:induction false} OwnerCameByClaim(sts: seq<Statement>, device: DeviceId)
    requires OwnerOf(Execute(sts), device).Some?
    ensures exists n: nat :: OwnedSince(sts, n, device)
  {
    var fewer, last := sts[..|sts| - 1], sts[|sts| - 1];
    assert sts == fewer + [last] && sts[..|sts|] == sts;
    OwnershipChanges(fewer, last, device);
    if OwnerOf(Execute(fewer), device) == OwnerOf(Execute(sts), device) {
      OwnerCameByClaim(fewer, device);
      var n: nat :| OwnedSince(fewer, n, device);
      assert OwnerAfter(fewer, |fewer|, device) == Some(fewer[n].user) && fewer[..|fewer|] == fewer;
      OneMoreOwned(fewer, last, n, device);
    } else {
      assert OwnerAfter(sts, |fewer|, device).None? && OwnerAfter(sts, |sts|, device) == Some(last.user);
      assert OwnedSince(sts, |fewer|, device);
    }
  }

  /** Claiming never meets an owned device: the conflict answer is unreachable. */
  lemma ClaimNeverConflicts(sts: seq<Statement>, user: UserId, digest: int, now: Time)
    ensures !Apply(Execute(sts), DoClaim(user, digest, now)).reply.Conflict?
  {
    ReachableIsConsistent(sts);
    ClaimKeepsConsistent(Execute(sts), user, CodeFor(Execute(sts), digest), now);
  }

  lemma {:induction false} ConsumedForever(sts: seq<Statement>, more: seq<Statement>, k: CodeId)
    requires k in Execute(sts).codes && Execute(sts).codes[k].consumedAt.Some?
    ensures k in Execute(sts + more).codes && Execute(sts + more).codes[k] == Execute(sts).codes[k]
  {
    if more == [] {
      assert sts + more == sts;
    } else {
      ConsumedForever(sts, more[..|more| - 1], k);
      ExecuteOneMore(sts, more);
    }
  }

  /** A code binds a device at most once, whoever presents it again and whenever. */
  lemma CodeBindsOnce(sts: seq<Statement>, first: Statement, more: seq<Statement>, second: Statement)
    requires first.DoClaim? && Apply(Execute(sts), first).reply.Done?
    requires second.DoClaim? && second.digest == first.digest
    ensures Apply(Execute(sts + [first] + more), second).reply == PairingInvalid
  {
    var t := Execute(sts);
    var k := CodeFor(t, first.digest).value;
    assert (sts + [first])[..|sts|] == sts;
    ConsumedForever(sts + [first], more, k);
    var t' := Execute(sts + [first] + more);
    ReachableIsConsistent(sts + [first] + more);
    assert HasDigest(t', second.digest, k);
    assert CodeFor(t', second.digest) == Some(k);
  }
}
