/**
 Signalling the descendants of a command through process descriptors, while
 processes exit and their numbers are given to new ones.  The kernel takes any
 steps it likes between two system calls, and any system call may fail.
 */
module ProcessScope {
  type ProcId = int

  datatype Identity = Identity(pid: int, group: int, session: int, start: int)

  datatype Process = Process(identity: Identity, reaped: bool)

  /**
   `owner` says which process a number names now; `trace` holds the process tables
   up to now, the present one last, and `hit` every process that was sent a signal.
   */
  datatype Kernel = Kernel(
    owner: map<int, ProcId>,
    procs: map<ProcId, Process>,
    trace: seq<map<ProcId, Process>>,
    hit: seq<ProcId>)

  datatype Event =
    | Spawn(p: ProcId, identity: Identity)
    | Reap(p: ProcId)
    | Regroup(p: ProcId, group: int, session: int)

  /** What the kernel does by itself; events that cannot happen do nothing. */
  function Apply(k: Kernel, e: Event): Kernel {
    match e
    case Spawn(p, identity) =>
      if p in k.procs || identity.pid in k.owner then k
      else Become(k, k.owner[identity.pid := p], k.procs[p := Process(identity, false)])
    case Reap(p) =>
      if p !in k.procs || k.procs[p].reaped then k
      else Become(k, k.owner - {k.procs[p].identity.pid}, k.procs[p := k.procs[p].(reaped := true)])
    case Regroup(p, group, session) =>
      if p !in k.procs || k.procs[p].reaped then k
      else Become(k, k.owner, k.procs[p := Process(k.procs[p].identity.(group := group, session := session), false)])
  }

  function Become(k: Kernel, owner: map<int, ProcId>, procs: map<ProcId, Process>): Kernel {
    k.(owner := owner, procs := procs, trace := k.trace + [procs])
  }

  function Elapse(k: Kernel, events: seq<Event>): Kernel
    decreases |events|
  {
    if events == [] then k else Elapse(Apply(k, events[0]), events[1..])
  }

  predicate Valid(k: Kernel) {
    && (forall pid <- k.owner :: k.owner[pid] in k.procs && k.procs[k.owner[pid]].identity.pid == pid && !k.procs[k.owner[pid]].reaped)
    && (forall p <- k.procs :: !k.procs[p].reaped ==> k.procs[p].identity.pid in k.owner && k.owner[k.procs[p].identity.pid] == p)
    && k.trace != [] && k.trace[|k.trace| - 1] == k.procs
    && (forall j | 0 <= j < |k.trace| :: SameNumbers(k.trace[j], k.procs))
  }

  predicate SameNumbers(a: map<ProcId, Process>, b: map<ProcId, Process>) {
    forall p <- a :: p in b && b[p].identity.pid == a[p].identity.pid
  }

  /** Processes keep their numbers and stay reaped, and the trace only grows. */
  predicate Evolves(k: Kernel, l: Kernel) {
    && (forall p <- k.procs :: && p in l.procs && l.procs[p].identity.pid == k.procs[p].identity.pid
                               && (k.procs[p].reaped ==> l.procs[p].reaped))
    && k.trace <= l.trace && k.hit <= l.hit
  }

  lemma BecomeIsTraced(k: Kernel, owner: map<int, ProcId>, procs: map<ProcId, Process>)
    requires (forall j | 0 <= j < |k.trace| :: SameNumbers(k.trace[j], k.procs)) && SameNumbers(k.procs, procs)
    ensures var l := Become(k, owner, procs); forall j | 0 <= j < |l.trace| :: SameNumbers(l.trace[j], l.procs)
  {
  }

  lemma ApplyEvolves(k: Kernel, e: Event)
    requires Valid(k)
    ensures Valid(Apply(k, e)) && Evolves(k, Apply(k, e)) && Apply(k, e).hit == k.hit
  {
    var l := Apply(k, e);
    if l != k {
      BecomeIsTraced(k, l.owner, l.procs);
    }
  }

  lemma {:induction false} ElapseEvolves(k: Kernel, events: seq<Event>)
    requires Valid(k)
    ensures Valid(Elapse(k, events)) && Evolves(k, Elapse(k, events)) && Elapse(k, events).hit == k.hit
    decreases |events|
  {
    if events != [] {
      ApplyEvolves(k, events[0]);
      ElapseEvolves(Apply(k, events[0]), events[1..]);
    }
  }

  // ---------------------------------------------------------------------------
  // The scope

  datatype Scope = Scope(group: int, session: int)

  /** A session decides when there is one, otherwise the process group does. */
  predicate Matches(scope: Scope, identity: Identity) {
    if scope.session > 1 then identity.session == scope.session
    else scope.group > 1 && identity.group == scope.group
  }

  /** With a session the group does not count, without one the session does not, and without either nothing is in scope. */
  lemma ScopeDecides(scope: Scope, identity: Identity, g: int, h: int)
    ensures scope.session > 1 ==> Matches(scope.(group := g), identity.(group := h)) == Matches(scope, identity)
    ensures scope.session <= 1 ==> Matches(scope.(session := 0), identity.(session := h)) == Matches(scope, identity)
    ensures scope.session <= 1 && scope.group <= 1 ==> !Matches(scope, identity)
    ensures Matches(scope, identity) ==> identity.session == scope.session > 1 || identity.group == scope.group > 1
  {
  }

  /** The world around the signaller: the events before its n-th system call, and whether that call fails. */
  datatype World = World(events: nat -> seq<Event>, fails: nat -> bool)

  datatype Result<T> = Value(value: T) | Missing | Broken

  /** What holds of a descriptor: it names one process for good, which owns its number until it is reaped. */
  predicate Pins(k: Kernel, p: ProcId, pid: int) {
    p in k.procs && k.procs[p].identity.pid == pid
  }

  /** The next system call: the kernel has moved on by then. */
  method Next(k: Kernel, w: World, n: nat) returns (l: Kernel, m: nat, fails: bool)
    requires Valid(k)
    ensures Valid(l) && Evolves(k, l) && l.hit == k.hit
  {
    ElapseEvolves(k, w.events(n));
    return Elapse(k, w.events(n)), n + 1, w.fails(n);
  }

  method Open(k: Kernel, w: World, n: nat, pid: int) returns (l: Kernel, m: nat, r: Result<ProcId>)
    requires Valid(k)
    ensures Valid(l) && Evolves(k, l) && l.hit == k.hit && (r.Value? ==> Pins(l, r.value, pid))
  {
    var fails;
    l, m, fails := Next(k, w, n);
    r := if fails then Broken else if pid in l.owner then Value(l.owner[pid]) else Missing;
  }

  method ReadIdentity(k: Kernel, w: World, n: nat, pid: int) returns (l: Kernel, m: nat, r: Result<Identity>)
    requires Valid(k)
    ensures Valid(l) && Evolves(k, l) && l.hit == k.hit
    ensures r.Value? ==> pid in l.owner && r.value == l.procs[l.owner[pid]].identity
  {
    var fails;
    l, m, fails := Next(k, w, n);
    r := if fails then Broken else if pid in l.owner then Value(l.procs[l.owner[pid]].identity) else Missing;
  }

  method ReadPid(k: Kernel, w: World, n: nat, fd: ProcId) returns (l: Kernel, m: nat, r: Result<int>)
    requires Valid(k) && fd in k.procs
    ensures Valid(l) && Evolves(k, l) && l.hit == k.hit
    ensures r.Value? ==> !l.procs[fd].reaped && r.value == l.procs[fd].identity.pid
  {
    var fails;
    l, m, fails := Next(k, w, n);
    r := if fails then Broken else if l.procs[fd].reaped then Missing else Value(l.procs[fd].identity.pid);
  }

  method Send(k: Kernel, w: World, n: nat, fd: ProcId) returns (l: Kernel, m: nat, r: Result<bool>)
    requires Valid(k) && fd in k.procs
    ensures Valid(l) && Evolves(k, l) && (l.hit == k.hit || l.hit == k.hit + [fd]) && (r.Value? ==> l.hit == k.hit + [fd])
  {
    var fails;
    l, m, fails := Next(k, w, n);
    if fails {
      r := Broken;
    } else if l.procs[fd].reaped {
      r := Missing;
    } else {
      l := l.(hit := l.hit + [fd]);
      r := Value(true);
    }
  }

  /** At some moment between `k` and `l` the process was there, unreaped, under the identity. */
  ghost predicate HadMeanwhile(k: Kernel, l: Kernel, p: ProcId, identity: Identity) {
    exists j :: 0 <= j && |k.trace| - 1 <= j < |l.trace| && p in l.trace[j] && l.trace[j][p] == Process(identity, false)
  }

  lemma StillHadMeanwhile(k: Kernel, l: Kernel, m: Kernel, n: Kernel, p: ProcId, identity: Identity)
    requires HadMeanwhile(l, m, p, identity) && |k.trace| <= |l.trace| && m.trace <= n.trace
    ensures HadMeanwhile(k, n, p, identity)
  {
    var j :| 0 <= j && |l.trace| - 1 <= j < |m.trace| && p in m.trace[j] && m.trace[j][p] == Process(identity, false);
    assert n.trace[j] == m.trace[j];
  }

  /**
   The identity under a number, if it is that of the process the descriptor pins:
   the number is read from the descriptor between two readings of the identity.
   */
  method VerifiedIdentity(k: Kernel, w: World, n: nat, pid: int, fd: ProcId) returns (l: Kernel, m: nat, r: Result<Identity>)
    requires Valid(k) && Pins(k, fd, pid)
    ensures Valid(l) && Evolves(k, l) && l.hit == k.hit
    ensures r.Value? ==> HadMeanwhile(k, l, fd, r.value) && r.value.pid == pid
    ensures r.Value? && !l.procs[fd].reaped ==> l.procs[fd].identity == r.value
  {
    var first, anchored, second;
    l, m, first := ReadIdentity(k, w, n, pid);
    if !first.Value? {
      return l, m, first;
    }
    ghost var reading := l;
    l, m, anchored := ReadPid(l, w, m, fd);
    if !anchored.Value? || anchored.value != pid {
      return l, m, Missing;
    }
    assert reading.owner[pid] == fd;
    assert HadMeanwhile(k, reading, fd, first.value) by {
      assert reading.trace[|reading.trace| - 1][fd] == Process(first.value, false);
    }
    l, m, second := ReadIdentity(l, w, m, pid);
    if !second.Value? {
      return l, m, second;
    }
    if first.value != second.value || first.value.pid != pid {
      return l, m, Missing;
    }
    return l, m, first;
  }

  /** While the scan ran, the process was unreaped under an identity that is in scope and has one of the numbers. */
  ghost predicate WasInScope(k: Kernel, l: Kernel, p: ProcId, scope: Scope, pids: set<int>) {
    exists identity :: HadMeanwhile(k, l, p, identity) && Matches(scope, identity) && identity.pid in pids
  }

  /** Every process signalled since `k` was in scope meanwhile, under one of the numbers tried. */
  ghost predicate Justified(k: Kernel, l: Kernel, scope: Scope, pids: set<int>) {
    k.hit <= l.hit && forall i | |k.hit| <= i < |l.hit| :: WasInScope(k, l, l.hit[i], scope, pids)
  }

  lemma JustifiedGrows(k: Kernel, l: Kernel, m: Kernel, scope: Scope, pids: set<int>)
    requires Justified(k, l, scope, pids) && Evolves(l, m)
    requires forall i | |l.hit| <= i < |m.hit| :: WasInScope(k, m, m.hit[i], scope, pids)
    ensures Justified(k, m, scope, pids)
  {
    forall i | |k.hit| <= i < |m.hit| ensures WasInScope(k, m, m.hit[i], scope, pids) {
      if i < |l.hit| {
        assert WasInScope(k, l, l.hit[i], scope, pids);
        var identity :| HadMeanwhile(k, l, l.hit[i], identity) && Matches(scope, identity) && identity.pid in pids;
        StillHadMeanwhile(k, k, l, m, l.hit[i], identity);
      }
    }
  }

  method SignalCandidates(k: Kernel, w: World, n: nat, scope: Scope, pids: seq<int>)
    returns (l: Kernel, m: nat, matched: nat, broken: bool)
    requires Valid(k)
    ensures Valid(l) && Evolves(k, l) && Justified(k, l, scope, set pid | pid in pids)
    ensures |l.hit| - |k.hit| <= matched <= |pids|
  {
    l, m, matched, broken := k, n, 0, false;
    ghost var all := set pid | pid in pids;
    var i := 0;
    while i < |pids|
      invariant 0 <= i <= |pids| && Valid(l) && Evolves(k, l) && Justified(k, l, scope, all)
      invariant |l.hit| - |k.hit| <= matched <= i
    {
      ghost var before := l;
      var fd, identity, sent;
      l, m, fd := Open(l, w, m, pids[i]);
      ghost var held := l;
      if fd.Value? {
        l, m, identity := VerifiedIdentity(l, w, m, pids[i], fd.value);
        JustifiedGrows(k, before, l, scope, all);
        if identity.Value? && Matches(scope, identity.value) {
          matched := matched + 1;
          ghost var verified := l;
          l, m, sent := Send(l, w, m, fd.value);
          broken := broken || sent.Broken?;
          StillHadMeanwhile(k, held, verified, l, fd.value, identity.value);
          assert WasInScope(k, l, fd.value, scope, all);
          JustifiedGrows(k, verified, l, scope, all);
        } else {
          broken := broken || identity.Broken?;
        }
      } else {
        broken := broken || fd.Broken?;
        JustifiedGrows(k, before, l, scope, all);
      }
      i := i + 1;
    }
  }

  /** The numbers worth trying: not the system's own and not the leader's. */
  method Filter(pids: seq<int>, leader: int) returns (filtered: seq<int>)
    ensures forall pid :: pid in filtered <==> pid in pids && pid > 1 && pid != leader
  {
    filtered := [];
    var i := 0;
    while i < |pids|
      invariant 0 <= i <= |pids|
      invariant forall pid :: pid in filtered <==> pid in pids[..i] && pid > 1 && pid != leader
    {
      assert pids[..i + 1] == pids[..i] + [pids[i]];
      if pids[i] > 1 && pids[i] != leader {
        filtered := filtered + [pids[i]];
      }
      i := i + 1;
    }
    assert pids[..i] == pids;
  }

  /**
   One scan of the scope: whatever exits and reuses numbers meanwhile, only
   processes that were in scope are signalled, and never one with the leader's
   number or a number of the system.
   */
  method SignalScope(k: Kernel, w: World, n: nat, scope: Scope, leader: int, candidates: seq<int>)
    returns (l: Kernel, m: nat, matched: nat, broken: bool)
    requires Valid(k)
    ensures Valid(l) && Evolves(k, l)
    ensures Justified(k, l, scope, set pid | pid in candidates && pid > 1 && pid != leader)
    ensures forall i | |k.hit| <= i < |l.hit| :: l.hit[i] in l.procs && l.procs[l.hit[i]].identity.pid > 1 && l.procs[l.hit[i]].identity.pid != leader
  {
    var pids := Filter(candidates, leader);
    l, m, matched, broken := SignalCandidates(k, w, n, scope, pids);
    assert (set pid | pid in pids) == set pid | pid in candidates && pid > 1 && pid != leader;
    forall i | |k.hit| <= i < |l.hit| ensures l.hit[i] in l.procs && l.procs[l.hit[i]].identity.pid > 1 && l.procs[l.hit[i]].identity.pid != leader {
      assert WasInScope(k, l, l.hit[i], scope, set pid | pid in pids);
      var identity :| HadMeanwhile(k, l, l.hit[i], identity) && Matches(scope, identity) && identity.pid in pids;
      var j :| 0 <= j && |k.trace| - 1 <= j < |l.trace| && l.hit[i] in l.trace[j] && l.trace[j][l.hit[i]] == Process(identity, false);
      assert SameNumbers(l.trace[j], l.procs);
    }
  }
}
