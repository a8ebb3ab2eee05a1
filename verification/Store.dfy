/**
 The store as the program writes it: one mutable object, each method a guarded
 update or a transaction of several statements, rolled back when a later
 statement fails.  Every method is proved to do what its one-step function in
 `Schema` does, and to keep the relational invariant.  The `io` argument says
 how the call ended for the caller; it ranges over all three possibilities.
 */
module Store {
  import opened Base
  import opened Schema
  import opened SchemaInvariant

  datatype Answer = Answered(reply: Reply) | Unavailable

  ghost predicate Did(before: Tables, o: Outcome, io: Io, after: Tables, a: Answer) {
    && after == (if io.Applied() then o.tables else before)
    && a == (if io.Ok? then Answered(o.reply) else Unavailable)
  }

  /** Deleting the calls whose session is gone deletes the calls of the deleted session. */
  lemma CascadeIsExact(t: Tables, user: UserId, sid: SessionId)
    requires Consistent(t) && SessionOwned(t, user, sid) && Quiet(t.sessions[sid].state)
    ensures var left := map s | s in t.sessions && s != sid :: t.sessions[s];
            DeleteSession(t, user, sid).tables.calls == map c | c in t.calls && t.calls[c].session in left :: t.calls[c]
  {
    assert forall c <- t.calls :: t.calls[c].session in t.sessions;
  }

  lemma OpenCallsIgnoreState(calls: map<CallId, Call>, before: map<SessionId, Session>, after: map<SessionId, Session>,
                             user: UserId, device: DeviceId, now: Time)
    requires before.Keys == after.Keys
    requires forall s <- before :: after[s].user == before[s].user && after[s].device == before[s].device
    ensures OpenCallsFailed(calls, after, user, device, now) == OpenCallsFailed(calls, before, user, device, now)
  {
    assert forall s :: UnpairCovers(after, user, device, s) == UnpairCovers(before, user, device, s);
  }

  class Store {
    var devices: map<DeviceId, Device>
    var codes: map<CodeId, Code>
    var sessions: map<SessionId, Session>
    var calls: map<CallId, Call>

    function Snapshot(): Tables
      reads this
    {
      Tables(devices, codes, sessions, calls)
    }

    ghost predicate Valid()
      reads this
    {
      Consistent(Snapshot())
    }

    constructor ()
      ensures Valid() && Snapshot() == EMPTY
    {
      devices, codes, sessions, calls := map[], map[], map[], map[];
    }

    method Rollback(saved: Tables)
      modifies this
      ensures Snapshot() == saved
    {
      devices, codes, sessions, calls := saved.devices, saved.codes, saved.sessions, saved.calls;
    }

    /** A transaction that ran to its commit: `io` decides whether it lasts and what the caller hears. */
    method Commit(saved: Tables, io: Io) returns (a: Answer)
      modifies this
      ensures Snapshot() == if io.Applied() then old(Snapshot()) else saved
      ensures a == if io.Ok? then Answered(Done) else Unavailable
    {
      if io.LostBefore? {
        Rollback(saved);
      }
      a := if io.Ok? then Answered(Done) else Unavailable;
    }

    // -------------------------------------------------------------------------
    // Devices and pairing

    method RegisterDevice(device: DeviceId, row: Device, io: Io) returns (a: Answer)
      requires Valid()
      modifies this
      ensures Valid()
      ensures Did(old(Snapshot()), Schema.RegisterDevice(old(Snapshot()), device, row), io, Snapshot(), a)
    {
      RegisterKeepsConsistent(Snapshot(), device, row);
      if io.LostBefore? {
        return Unavailable;
      }
      var reply := Done;
      if device in devices {
        if devices[device].publicKey == row.publicKey {
          devices := devices[device := devices[device].(profile := row.profile)];
        } else {
          reply := Conflict;
        }
      } else if exists d <- devices :: devices[d].publicKey == row.publicKey {
        reply := Refused;
      } else {
        devices := devices[device := row];
      }
      a := if io.Ok? then Answered(reply) else Unavailable;
    }

    method CreatePairingCode(code: CodeId, device: DeviceId, digest: int, expiresAt: Time, now: Time, io: Io)
      returns (a: Answer)
      requires Valid()
      modifies this
      ensures Valid()
      ensures Did(old(Snapshot()), CreateCode(old(Snapshot()), code, device, digest, expiresAt, now), io, Snapshot(), a)
    {
      CreateCodeKeepsConsistent(Snapshot(), code, device, digest, expiresAt, now);
      var saved := Snapshot();
      var refusal: Option<Reply> := None;
      if device !in devices {
        refusal := Some(NotFound);
      } else if devices[device].owner.Some? {
        refusal := Some(Conflict);
      } else {
        codes := ActiveCodesConsumed(codes, device, now);
        if code in codes || exists k <- codes :: codes[k].digest == digest {
          refusal := Some(Refused);
          assert code in saved.codes || exists k <- saved.codes :: saved.codes[k].digest == digest by {
            if code !in codes {
              var k :| k in codes && codes[k].digest == digest;
              assert k in saved.codes && saved.codes[k].digest == digest;
            }
          }
        } else {
          forall k | k in saved.codes ensures saved.codes[k].digest != digest {
            assert k in codes;
          }
          codes := codes[code := Code(device, digest, expiresAt, None)];
        }
      }
      if refusal.Some? {
        Rollback(saved);
        return if io.Ok? then Answered(refusal.value) else Unavailable;
      }
      a := Commit(saved, io);
    }

    method ClaimPairing(user: UserId, digest: int, now: Time, io: Io) returns (a: Answer)
      requires Valid()
      modifies this
      ensures Valid()
      ensures Did(old(Snapshot()), Apply(old(Snapshot()), DoClaim(user, digest, now)), io, Snapshot(), a)
      ensures a != Answered(Conflict)
    {
      var saved := Snapshot();
      ghost var chosen := CodeFor(saved, digest);
      ClaimKeepsConsistent(saved, user, chosen, now);
      var reply := Done;
      if code :| code in codes && codes[code].digest == digest {
        assert HasDigest(saved, digest, code);
        assert chosen == Some(code);
        if codes[code].consumedAt.Some? {
          reply := PairingInvalid;
        } else if now >= codes[code].expiresAt {
          reply := PairingExpired;
        } else {
          var device := codes[code].device;
          if device !in devices || devices[device].owner.Some? {
            reply := Conflict;
          } else {
            devices := devices[device := devices[device].(owner := Some(user), pairedAt := Some(now))];
            codes := codes[code := codes[code].(consumedAt := Some(now))];
          }
        }
      } else {
        assert chosen.None?;
        reply := PairingInvalid;
      }
      if !reply.Done? {
        Rollback(saved);
        return if io.Ok? then Answered(reply) else Unavailable;
      }
      a := Commit(saved, io);
    }

    method UnpairDevice(user: UserId, device: DeviceId, now: Time, io: Io)
      returns (a: Answer, revoked: set<SessionId>)
      requires Valid()
      modifies this
      ensures Valid()
      ensures Did(old(Snapshot()), Unpair(old(Snapshot()), user, device, now), io, Snapshot(), a)
      ensures a == Answered(Done) ==> revoked == CoveredSessions(old(sessions), user, device)
    {
      var saved := Snapshot();
      UnpairKeepsConsistent(saved, user, device, now);
      revoked := {};
      if !(device in devices && devices[device].owner == Some(user)) {
        return if io.Ok? then Answered(NotFound) else Unavailable, revoked;
      }
      revoked := CoveredSessions(sessions, user, device);
      codes := ActiveCodesConsumed(codes, device, now);
      sessions := SessionsRevoked(sessions, revoked);
      // The session rows have changed state by now; the join looks only at their user and device.
      OpenCallsIgnoreState(saved.calls, saved.sessions, sessions, user, device, now);
      calls := OpenCallsFailed(calls, sessions, user, device, now);
      devices := devices[device := devices[device].(owner := None, pairedAt := None)];
      a := Commit(saved, io);
    }

    // -------------------------------------------------------------------------
    // Sessions

    method CreateAgentSession(sid: SessionId, user: UserId, device: DeviceId, mode: ApprovalMode, io: Io)
      returns (a: Answer)
      requires Valid()
      modifies this
      ensures Valid()
      ensures Did(old(Snapshot()), CreateSession(old(Snapshot()), sid, user, device, mode), io, Snapshot(), a)
    {
      SessionStatementKeepsConsistent(Snapshot(), DoCreateSession(sid, user, device, mode));
      var reply := Done;
      if device !in devices || devices[device].owner != Some(user) {
        reply := NotFound;
      } else if sid in sessions {
        reply := Refused;
      } else if io.Applied() {
        sessions := sessions[sid := Session(user, device, mode, Idle, None)];
      }
      a := if io.Ok? then Answered(reply) else Unavailable;
    }

    /** The common form of a one-row session update: rewrite when the guard holds, else say why not. */
    method UpdateSession(guard: bool, sid: SessionId, row: Session, found: bool, io: Io) returns (a: Answer)
      modifies this`sessions
      ensures sessions == if guard && io.Applied() then old(sessions)[sid := row] else old(sessions)
      ensures a == if !io.Ok? then Unavailable
                   else Answered(if guard then Done else if found then Conflict else NotFound)
    {
      if guard && io.Applied() {
        sessions := sessions[sid := row];
      }
      a := if !io.Ok? then Unavailable else Answered(if guard then Done else if found then Conflict else NotFound);
    }

    method UpdateApprovalMode(user: UserId, sid: SessionId, mode: ApprovalMode, io: Io) returns (a: Answer)
      requires Valid()
      modifies this
      ensures Valid()
      ensures Did(old(Snapshot()), SetMode(old(Snapshot()), user, sid, mode), io, Snapshot(), a)
    {
      SessionStatementKeepsConsistent(Snapshot(), DoSetMode(user, sid, mode));
      var found := SessionVisible(Snapshot(), user, sid);
      if !found {
        return if io.Ok? then Answered(NotFound) else Unavailable;
      }
      a := UpdateSession(Quiet(sessions[sid].state), sid, sessions[sid].(mode := mode), true, io);
    }

    method SetSessionArchived(user: UserId, sid: SessionId, at: Option<Time>, io: Io) returns (a: Answer)
      requires Valid()
      modifies this
      ensures Valid()
      ensures Did(old(Snapshot()), SetArchived(old(Snapshot()), user, sid, at), io, Snapshot(), a)
    {
      SessionStatementKeepsConsistent(Snapshot(), DoSetArchived(user, sid, at));
      var found := SessionOwned(Snapshot(), user, sid);
      if !found {
        return if io.Ok? then Answered(NotFound) else Unavailable;
      }
      a := UpdateSession(Quiet(sessions[sid].state), sid, sessions[sid].(archivedAt := at), true, io);
    }

    method DeleteAgentSession(user: UserId, sid: SessionId, io: Io) returns (a: Answer)
      requires Valid()
      modifies this
      ensures Valid()
      ensures Did(old(Snapshot()), DeleteSession(old(Snapshot()), user, sid), io, Snapshot(), a)
    {
      var saved := Snapshot();
      SessionStatementKeepsConsistent(saved, DoDeleteSession(user, sid));
      if !SessionOwned(saved, user, sid) {
        return if io.Ok? then Answered(NotFound) else Unavailable;
      }
      if !Quiet(sessions[sid].state) {
        return if io.Ok? then Answered(Conflict) else Unavailable;
      }
      sessions := map s | s in sessions && s != sid :: sessions[s];
      calls := map c | c in calls && calls[c].session in sessions :: calls[c];
      CascadeIsExact(saved, user, sid);
      a := Commit(saved, io);
    }

    method UpdateSessionState(user: UserId, sid: SessionId, state: SessionState, io: Io) returns (a: Answer)
      requires Valid()
      modifies this
      ensures Valid()
      ensures Did(old(Snapshot()), SetState(old(Snapshot()), user, sid, state), io, Snapshot(), a)
    {
      SessionStatementKeepsConsistent(Snapshot(), DoSetState(user, sid, state));
      if state.Revoked? {
        return if io.Ok? then Answered(Invalid) else Unavailable;
      }
      if !SessionVisible(Snapshot(), user, sid) {
        return if io.Ok? then Answered(NotFound) else Unavailable;
      }
      a := UpdateSession(true, sid, sessions[sid].(state := state), true, io);
    }

    method BeginAgentTurn(user: UserId, sid: SessionId, io: Io) returns (a: Answer)
      requires Valid()
      modifies this
      ensures Valid()
      ensures Did(old(Snapshot()), BeginTurn(old(Snapshot()), user, sid), io, Snapshot(), a)
    {
      SessionStatementKeepsConsistent(Snapshot(), DoBeginTurn(user, sid));
      if !SessionVisible(Snapshot(), user, sid) {
        return if io.Ok? then Answered(NotFound) else Unavailable;
      }
      a := UpdateSession(Quiet(sessions[sid].state), sid, sessions[sid].(state := Running), true, io);
    }

    // -------------------------------------------------------------------------
    // Tool calls

    method CreateToolCall(user: UserId, cid: CallId, sid: SessionId, status: CallStatus, io: Io) returns (a: Answer)
      requires Valid()
      modifies this
      ensures Valid()
      ensures Did(old(Snapshot()), CreateCall(old(Snapshot()), user, cid, sid, status), io, Snapshot(), a)
    {
      CallStatementKeepsConsistent(Snapshot(), DoCreateCall(user, cid, sid, status));
      var reply := Done;
      if !status.Pending? && !status.Started? {
        reply := Invalid;
      } else if !SessionVisible(Snapshot(), user, sid) {
        reply := NotFound;
      } else if cid in calls {
        reply := Refused;
      } else if io.Applied() {
        calls := calls[cid := Call(sid, status, None, None, None, None)];
      }
      a := if io.Ok? then Answered(reply) else Unavailable;
    }

    method DecideToolCall(user: UserId, cid: CallId, decision: Decision, io: Io) returns (a: Answer)
      requires Valid()
      modifies this
      ensures Valid()
      ensures Did(old(Snapshot()), Decide(old(Snapshot()), user, cid, decision), io, Snapshot(), a)
    {
      var saved := Snapshot();
      CallStatementKeepsConsistent(saved, DoDecide(user, cid, decision));
      if !(CallVisible(saved, user, cid) && calls[cid].status.Pending? && calls[cid].decision.None?) {
        var reply := if CallVisible(saved, user, cid) then Conflict else NotFound;
        return if io.Ok? then Answered(reply) else Unavailable;
      }
      calls := calls[cid := calls[cid].(decision := Some(decision))];
      if decision.ApproveSession? {
        var sid := calls[cid].session;
        // The upgrade's own guard always finds its one row.
        assert SessionVisible(Snapshot(), user, sid);
        sessions := sessions[sid := sessions[sid].(mode := FullAccess)];
      }
      a := Commit(saved, io);
    }

    /** The update half of failing a pending call; its lookup is a statement of its own. */
    method FailPendingToolCall(user: UserId, cid: CallId, excerpt: string, now: Time, io: Io) returns (a: Answer)
      requires Valid()
      modifies this
      ensures Valid()
      ensures Did(old(Snapshot()), FailPending(old(Snapshot()), user, cid, excerpt, now), io, Snapshot(), a)
    {
      CallStatementKeepsConsistent(Snapshot(), DoFailPending(user, cid, excerpt, now));
      var reply := Done;
      if |excerpt| > MAX_EXCERPT {
        reply := Invalid;
      } else if !CallVisible(Snapshot(), user, cid) {
        reply := NotFound;
      } else if !calls[cid].status.Pending? || calls[cid].decision.Some? {
        reply := Conflict;
      } else if io.Applied() {
        calls := calls[cid := calls[cid].(status := Failed, excerpt := Some(excerpt), completedAt := Some(now))];
      }
      a := if io.Ok? then Answered(reply) else Unavailable;
    }

    method StartToolCall(user: UserId, cid: CallId, io: Io) returns (a: Answer)
      requires Valid()
      modifies this
      ensures Valid()
      ensures Did(old(Snapshot()), StartCall(old(Snapshot()), user, cid), io, Snapshot(), a)
    {
      CallStatementKeepsConsistent(Snapshot(), DoStart(user, cid));
      var reply := Done;
      if !CallVisible(Snapshot(), user, cid) {
        reply := NotFound;
      } else if calls[cid].status.Pending? && calls[cid].decision in {Some(ApproveOnce), Some(ApproveSession)} {
        if io.Applied() {
          calls := calls[cid := calls[cid].(status := Started)];
        }
      } else {
        reply := Conflict;
      }
      a := if io.Ok? then Answered(reply) else Unavailable;
    }

    method FinishToolCall(user: UserId, cid: CallId, status: CallStatus, exitCode: Option<int>,
                          excerpt: Option<string>, now: Time, io: Io)
      returns (a: Answer)
      requires Valid()
      modifies this
      ensures Valid()
      ensures Did(old(Snapshot()), FinishCall(old(Snapshot()), user, cid, status, exitCode, excerpt, now), io, Snapshot(), a)
    {
      CallStatementKeepsConsistent(Snapshot(), DoFinish(user, cid, status, exitCode, excerpt, now));
      var reply := Done;
      if !status.Terminal() || (excerpt.Some? && |excerpt.value| > MAX_EXCERPT) {
        reply := Invalid;
      } else if !CallVisible(Snapshot(), user, cid) {
        reply := NotFound;
      } else {
        var from := calls[cid].status.Started?;
        if status.Denied? {
          from := calls[cid].status.Pending? && calls[cid].decision == Some(Deny);
        } else if status.Failed? {
          from := calls[cid].status.Started? || (calls[cid].status.Pending? && calls[cid].decision.Some?);
        }
        if !from {
          reply := Conflict;
        } else if io.Applied() {
          calls := calls[cid := calls[cid].(status := status, exitCode := exitCode, excerpt := excerpt,
                                            completedAt := Some(now))];
        }
      }
      a := if io.Ok? then Answered(reply) else Unavailable;
    }

    /**
     A lookup.  In a consistent store the device need not be asked: who finds a call
     is the user of its session, as long as that is neither revoked nor archived.
     */
    method ToolCallByOwner(user: UserId, cid: CallId, io: Io) returns (row: Option<Call>)
      requires Valid()
      ensures row.Some? ==> cid in calls && row.value == calls[cid]
      ensures row.Some? <==> io.Ok? && cid in calls && sessions[calls[cid].session].user == user
                             && !sessions[calls[cid].session].state.Revoked? && sessions[calls[cid].session].archivedAt.None?
    {
      row := if io.Ok? && CallVisible(Snapshot(), user, cid) then Some(calls[cid]) else None;
    }
  }
}
