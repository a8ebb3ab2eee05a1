/**
 The four tables that ownership, pairing and approval share, and every
 statement or transaction that changes them.  One call of a statement function
 is one atomic step: the program opens a single database connection.
 */
module Schema {
  import opened Base

  type UserId = int
  type DeviceId = int
  type CodeId = int
  type SessionId = int
  type CallId = int
  type Time = int

  datatype ApprovalMode = PerCommand | FullAccess

  datatype SessionState = Idle | Running | WaitingApproval | TurnFailed | Revoked

  datatype CallStatus = Pending | Started | Completed | Denied | Failed {
    predicate Terminal() {
      Completed? || Denied? || Failed?
    }
  }

  datatype Decision = ApproveOnce | ApproveSession | Deny {
    predicate Approves() {
      ApproveOnce? || ApproveSession?
    }
  }

  datatype Device = Device(publicKey: int, owner: Option<UserId>, profile: int, pairedAt: Option<Time>)

  datatype Code = Code(device: DeviceId, digest: int, expiresAt: Time, consumedAt: Option<Time>)

  datatype Session = Session(user: UserId, device: DeviceId, mode: ApprovalMode, state: SessionState,
                             archivedAt: Option<Time>)

  datatype Call = Call(session: SessionId, status: CallStatus, decision: Option<Decision>,
                       exitCode: Option<int>, excerpt: Option<string>, completedAt: Option<Time>)

  datatype Tables = Tables(devices: map<DeviceId, Device>, codes: map<CodeId, Code>,
                           sessions: map<SessionId, Session>, calls: map<CallId, Call>)

  /** What a statement answers; `Refused` is a violated key or uniqueness constraint. */
  datatype Reply = Done | NotFound | Conflict | Invalid | Refused | PairingInvalid | PairingExpired

  datatype Outcome = Outcome(tables: Tables, reply: Reply)

  const EMPTY := Tables(map[], map[], map[], map[])
  const MAX_EXCERPT := 8192
  const UNPAIRED_EXCERPT := "device unpaired"

  // ---------------------------------------------------------------------------
  // Row predicates

  /** The session belongs to `user`, is not revoked, and its device is still theirs. */
  predicate SessionOwned(t: Tables, user: UserId, sid: SessionId) {
    && sid in t.sessions
    && t.sessions[sid].user == user
    && t.sessions[sid].state != Revoked
    && t.sessions[sid].device in t.devices
    && t.devices[t.sessions[sid].device].owner == Some(user)
  }

  predicate SessionVisible(t: Tables, user: UserId, sid: SessionId) {
    SessionOwned(t, user, sid) && t.sessions[sid].archivedAt.None?
  }

  predicate CallVisible(t: Tables, user: UserId, cid: CallId) {
    cid in t.calls && SessionVisible(t, user, t.calls[cid].session)
  }

  /** No turn is using the session. */
  predicate Quiet(state: SessionState) {
    state.Idle? || state.TurnFailed?
  }

  predicate DeviceOwned(t: Tables, user: UserId, device: DeviceId) {
    device in t.devices && t.devices[device].owner == Some(user)
  }

  predicate UnpairCovers(sessions: map<SessionId, Session>, user: UserId, device: DeviceId, sid: SessionId) {
    sid in sessions && sessions[sid].user == user && sessions[sid].device == device
  }

  function CoveredSessions(sessions: map<SessionId, Session>, user: UserId, device: DeviceId): set<SessionId> {
    set s | s in sessions && UnpairCovers(sessions, user, device, s)
  }

  function SessionsRevoked(sessions: map<SessionId, Session>, which: set<SessionId>): map<SessionId, Session> {
    map s | s in sessions :: if s in which then sessions[s].(state := Revoked) else sessions[s]
  }

  /** Every open call of the covered sessions, failed. */
  function OpenCallsFailed(calls: map<CallId, Call>, sessions: map<SessionId, Session>, user: UserId, device: DeviceId,
                           now: Time): map<CallId, Call>
  {
    map c | c in calls ::
      if !calls[c].status.Terminal() && calls[c].completedAt.None?
         && UnpairCovers(sessions, user, device, calls[c].session)
      then calls[c].(status := Failed, exitCode := None, excerpt := Some(UNPAIRED_EXCERPT), completedAt := Some(now))
      else calls[c]
  }

  function ActiveCodesConsumed(codes: map<CodeId, Code>, device: DeviceId, now: Time): map<CodeId, Code> {
    map k | k in codes ::
      if codes[k].device == device && codes[k].consumedAt.None? then codes[k].(consumedAt := Some(now)) else codes[k]
  }

  // ---------------------------------------------------------------------------
  // Devices and pairing

  function RegisterDevice(t: Tables, device: DeviceId, row: Device): Outcome {
    if device !in t.devices then
      if exists d <- t.devices :: t.devices[d].publicKey == row.publicKey then Outcome(t, Refused)
      else Outcome(t.(devices := t.devices[device := row]), Done)
    else if t.devices[device].publicKey == row.publicKey then
      Outcome(t.(devices := t.devices[device := t.devices[device].(profile := row.profile)]), Done)
    else
      Outcome(t, Conflict)
  }

  function CreateCode(t: Tables, code: CodeId, device: DeviceId, digest: int, expiresAt: Time, now: Time): Outcome {
    if device !in t.devices then Outcome(t, NotFound)
    else if t.devices[device].owner.Some? then Outcome(t, Conflict)
    else if code in t.codes || exists k <- t.codes :: t.codes[k].digest == digest then Outcome(t, Refused)
    else
      var codes := ActiveCodesConsumed(t.codes, device, now);
      Outcome(t.(codes := codes[code := Code(device, digest, expiresAt, None)]), Done)
  }

  ghost predicate HasDigest(t: Tables, digest: int, k: CodeId) {
    k in t.codes && t.codes[k].digest == digest
  }

  /** `code` is the row selected by its digest, if there is one. */
  function Claim(t: Tables, user: UserId, code: Option<CodeId>, now: Time): Outcome
    requires code.Some? ==> code.value in t.codes
  {
    if code.None? || t.codes[code.value].consumedAt.Some? then Outcome(t, PairingInvalid)
    else if now >= t.codes[code.value].expiresAt then Outcome(t, PairingExpired)
    else
      var device := t.codes[code.value].device;
      if device !in t.devices || t.devices[device].owner.Some? then Outcome(t, Conflict)
      else
        Outcome(t.(devices := t.devices[device := t.devices[device].(owner := Some(user), pairedAt := Some(now))],
                   codes := t.codes[code.value := t.codes[code.value].(consumedAt := Some(now))]), Done)
  }

  function Unpair(t: Tables, user: UserId, device: DeviceId, now: Time): Outcome {
    if !DeviceOwned(t, user, device) then Outcome(t, NotFound)
    else
      var sessions := SessionsRevoked(t.sessions, CoveredSessions(t.sessions, user, device));
      var calls := OpenCallsFailed(t.calls, t.sessions, user, device, now);
      Outcome(Tables(t.devices[device := t.devices[device].(owner := None, pairedAt := None)],
                     ActiveCodesConsumed(t.codes, device, now), sessions, calls), Done)
  }

  // ---------------------------------------------------------------------------
  // Sessions

  function CreateSession(t: Tables, sid: SessionId, user: UserId, device: DeviceId, mode: ApprovalMode): Outcome {
    if !DeviceOwned(t, user, device) then Outcome(t, NotFound)
    else if sid in t.sessions then Outcome(t, Refused)
    else Outcome(t.(sessions := t.sessions[sid := Session(user, device, mode, Idle, None)]), Done)
  }

  function SetMode(t: Tables, user: UserId, sid: SessionId, mode: ApprovalMode): Outcome {
    if !SessionVisible(t, user, sid) then Outcome(t, NotFound)
    else if !Quiet(t.sessions[sid].state) then Outcome(t, Conflict)
    else Outcome(t.(sessions := t.sessions[sid := t.sessions[sid].(mode := mode)]), Done)
  }

  function SetArchived(t: Tables, user: UserId, sid: SessionId, at: Option<Time>): Outcome {
    if !SessionOwned(t, user, sid) then Outcome(t, NotFound)
    else if !Quiet(t.sessions[sid].state) then Outcome(t, Conflict)
    else Outcome(t.(sessions := t.sessions[sid := t.sessions[sid].(archivedAt := at)]), Done)
  }

  /** Deleting a session deletes its tool calls with it. */
  function DeleteSession(t: Tables, user: UserId, sid: SessionId): Outcome {
    if !SessionOwned(t, user, sid) then Outcome(t, NotFound)
    else if !Quiet(t.sessions[sid].state) then Outcome(t, Conflict)
    else Outcome(t.(sessions := map s | s in t.sessions && s != sid :: t.sessions[s],
                    calls := map c | c in t.calls && t.calls[c].session != sid :: t.calls[c]), Done)
  }

  /** `revoked` is not a state a caller may write. */
  function SetState(t: Tables, user: UserId, sid: SessionId, state: SessionState): Outcome {
    if state.Revoked? then Outcome(t, Invalid)
    else if !SessionVisible(t, user, sid) then Outcome(t, NotFound)
    else Outcome(t.(sessions := t.sessions[sid := t.sessions[sid].(state := state)]), Done)
  }

  function BeginTurn(t: Tables, user: UserId, sid: SessionId): Outcome {
    if !SessionVisible(t, user, sid) then Outcome(t, NotFound)
    else if !Quiet(t.sessions[sid].state) then Outcome(t, Conflict)
    else Outcome(t.(sessions := t.sessions[sid := t.sessions[sid].(state := Running)]), Done)
  }

  // ---------------------------------------------------------------------------
  // Tool calls

  function CreateCall(t: Tables, user: UserId, cid: CallId, sid: SessionId, status: CallStatus): Outcome {
    if status.Terminal() then Outcome(t, Invalid)
    else if !SessionVisible(t, user, sid) then Outcome(t, NotFound)
    else if cid in t.calls then Outcome(t, Refused)
    else Outcome(t.(calls := t.calls[cid := Call(sid, status, None, None, None, None)]), Done)
  }

  /** Records the one decision and, for approve_session, upgrades the owning session with it. */
  function Decide(t: Tables, user: UserId, cid: CallId, decision: Decision): Outcome {
    if !CallVisible(t, user, cid) then Outcome(t, NotFound)
    else if !(t.calls[cid].status.Pending? && t.calls[cid].decision.None?) then Outcome(t, Conflict)
    else
      var sid := t.calls[cid].session;
      var sessions := if decision.ApproveSession? then t.sessions[sid := t.sessions[sid].(mode := FullAccess)]
                      else t.sessions;
      Outcome(t.(sessions := sessions, calls := t.calls[cid := t.calls[cid].(decision := Some(decision))]), Done)
  }

  function FailPending(t: Tables, user: UserId, cid: CallId, excerpt: string, now: Time): Outcome {
    if |excerpt| > MAX_EXCERPT then Outcome(t, Invalid)
    else if !CallVisible(t, user, cid) then Outcome(t, NotFound)
    else if !(t.calls[cid].status.Pending? && t.calls[cid].decision.None?) then Outcome(t, Conflict)
    else Outcome(t.(calls := t.calls[cid := t.calls[cid].(status := Failed, excerpt := Some(excerpt),
                                                          completedAt := Some(now))]), Done)
  }

  function StartCall(t: Tables, user: UserId, cid: CallId): Outcome {
    if !CallVisible(t, user, cid) then Outcome(t, NotFound)
    else if !(t.calls[cid].status.Pending? && t.calls[cid].decision.Some? && t.calls[cid].decision.value.Approves())
    then Outcome(t, Conflict)
    else Outcome(t.(calls := t.calls[cid := t.calls[cid].(status := Started)]), Done)
  }

  /** The rows from which `status` may be reached by finishing. */
  predicate Finishable(row: Call, status: CallStatus) {
    match status
    case Completed => row.status.Started?
    case Denied => row.status.Pending? && row.decision == Some(Deny)
    case Failed => row.status.Started? || (row.status.Pending? && row.decision.Some?)
    case _ => false
  }

  function FinishCall(t: Tables, user: UserId, cid: CallId, status: CallStatus, exitCode: Option<int>,
                      excerpt: Option<string>, now: Time): Outcome
  {
    if !status.Terminal() || (excerpt.Some? && |excerpt.value| > MAX_EXCERPT) then Outcome(t, Invalid)
    else if !CallVisible(t, user, cid) then Outcome(t, NotFound)
    else if !Finishable(t.calls[cid], status) then Outcome(t, Conflict)
    else Outcome(t.(calls := t.calls[cid := t.calls[cid].(status := status, exitCode := exitCode, excerpt := excerpt,
                                                          completedAt := Some(now))]), Done)
  }
}
