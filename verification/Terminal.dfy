/**
 Admission of terminals: a generation per device, a count per user, and a
 registry that cancelling a device and closing the handler join.  A step is one
 critical section, one cancellation or one wait; they interleave freely.
 */
module Terminal {
  type UserId = int
  type DeviceId = int
  type SessionId = int
  type RequestId = int
  type JoinId = int

  const MAX_PER_USER := 4

  datatype Session = Session(user: UserId, device: DeviceId, generation: nat, canceled: bool, done: bool)

  /** `sessions` keeps every session ever admitted; the registry proper is `byDevice`. */
  datatype Registry = Registry(
    closed: bool,
    generations: map<DeviceId, nat>,
    counts: map<UserId, int>,
    byDevice: map<DeviceId, set<SessionId>>,
    sessions: map<SessionId, Session>)

  datatype Reply = Admitted | HandlerClosed | DeviceInvalidated | RequestDone | TerminalLimit

  const NEW_REGISTRY := Registry(false, map[], map[], map[], map[])

  function Generation(r: Registry, d: DeviceId): nat {
    if d in r.generations then r.generations[d] else 0
  }

  function CountOf(r: Registry, u: UserId): int {
    if u in r.counts then r.counts[u] else 0
  }

  function On(r: Registry, d: DeviceId): set<SessionId> {
    if d in r.byDevice then r.byDevice[d] else {}
  }

  function Verdict(r: Registry, user: UserId, device: DeviceId, generation: nat, parentDone: bool): Reply {
    if r.closed then HandlerClosed
    else if Generation(r, device) != generation then DeviceInvalidated
    else if parentDone then RequestDone
    else if CountOf(r, user) >= MAX_PER_USER then TerminalLimit
    else Admitted
  }

  function Register(r: Registry, id: SessionId, user: UserId, device: DeviceId, generation: nat): Registry {
    r.(counts := r.counts[user := CountOf(r, user) + 1], byDevice := r.byDevice[device := On(r, device) + {id}],
       sessions := r.sessions[id := Session(user, device, generation, false, false)])
  }

  function Finish(r: Registry, id: SessionId): Registry
    requires id in r.sessions
  {
    r.(sessions := r.sessions[id := r.sessions[id].(done := true)])
  }

  function Unregister(r: Registry, id: SessionId): Registry
    requires id in r.sessions
  {
    var s := r.sessions[id];
    if id !in On(r, s.device) then r
    else
      r.(counts := if CountOf(r, s.user) - 1 == 0 then r.counts - {s.user} else r.counts[s.user := CountOf(r, s.user) - 1],
         byDevice := if On(r, s.device) == {id} then r.byDevice - {s.device} else r.byDevice[s.device := On(r, s.device) - {id}])
  }

  /** Finished first and unregistered after, in one critical section. */
  function Release(r: Registry, id: SessionId): Registry
    requires id in r.sessions
  {
    Unregister(Finish(r, id), id)
  }

  function Advance(r: Registry, d: DeviceId): Registry {
    r.(generations := r.generations[d := Generation(r, d) + 1])
  }

  function Cancel(r: Registry, id: SessionId): Registry
    requires id in r.sessions
  {
    r.(sessions := r.sessions[id := r.sessions[id].(canceled := true)])
  }

  function All(r: Registry): set<SessionId> {
    set d, id | d in r.byDevice && id in r.byDevice[d] :: id
  }

  // ---------------------------------------------------------------------------
  // The step system

  datatype Request = Request(user: UserId, device: DeviceId, generation: nat)

  /** What a cancellation has to join: a device's sessions before a generation, or everything. */
  datatype Scope = Before(device: DeviceId, generation: nat) | Everything

  datatype Join = Join(scope: Scope, toCancel: set<SessionId>, waiting: set<SessionId>, returned: bool)

  datatype World = World(reg: Registry, requests: map<RequestId, Request>, joins: map<JoinId, Join>)

  const NEW := World(NEW_REGISTRY, map[], map[])

  datatype Step =
    | Snapshot(q: RequestId, user: UserId, device: DeviceId)
    | Admit(q: RequestId, id: SessionId, parentDone: bool)
    | End(id: SessionId)
    | CancelDevice(j: JoinId, device: DeviceId)
    | Close(j: JoinId)
    | CancelOne(j: JoinId, id: SessionId)
    | Wait(j: JoinId, id: SessionId)
    | Return(j: JoinId)

  predicate Enabled(w: World, s: Step) {
    match s
    case Snapshot(q, _, _) => q !in w.requests
    case Admit(q, id, _) => q in w.requests && id !in w.reg.sessions
    case End(id) => id in w.reg.sessions
    case CancelDevice(j, _) => j !in w.joins
    case Close(j) => j !in w.joins && !w.reg.closed
    case CancelOne(j, id) => j in w.joins && id in w.joins[j].toCancel && id in w.reg.sessions
    case Wait(j, id) =>
      j in w.joins && w.joins[j].toCancel == {} && id in w.joins[j].waiting && id in w.reg.sessions && w.reg.sessions[id].done
    case Return(j) => j in w.joins && w.joins[j].toCancel == {} && w.joins[j].waiting == {}
  }

  function Take(w: World, s: Step): World
    requires Enabled(w, s)
  {
    match s
    case Snapshot(q, user, device) => w.(requests := w.requests[q := Request(user, device, Generation(w.reg, device))])
    case Admit(q, id, parentDone) =>
      var r := w.requests[q];
      if Verdict(w.reg, r.user, r.device, r.generation, parentDone).Admitted?
      then w.(reg := Register(w.reg, id, r.user, r.device, r.generation)) else w
    case End(id) => w.(reg := Release(w.reg, id))
    case CancelDevice(j, device) =>
      var reg := Advance(w.reg, device);
      w.(reg := reg, joins := w.joins[j := Join(Before(device, Generation(reg, device)), On(reg, device), On(reg, device), false)])
    case Close(j) =>
      w.(reg := w.reg.(closed := true), joins := w.joins[j := Join(Everything, All(w.reg), All(w.reg), false)])
    case CancelOne(j, id) =>
      w.(reg := Cancel(w.reg, id), joins := w.joins[j := w.joins[j].(toCancel := w.joins[j].toCancel - {id})])
    case Wait(j, id) => w.(joins := w.joins[j := w.joins[j].(waiting := w.joins[j].waiting - {id})])
    case Return(j) => w.(joins := w.joins[j := w.joins[j].(returned := true)])
  }

  ghost predicate Run(ws: seq<World>, steps: seq<Step>) {
    && |ws| == |steps| + 1 && ws[0] == NEW
    && forall i :: 0 <= i < |steps| ==> Enabled(ws[i], steps[i]) && ws[i + 1] == Take(ws[i], steps[i])
  }

  // ---------------------------------------------------------------------------
  // The registry's invariant

  predicate Listed(r: Registry, id: SessionId) {
    id in r.sessions && id in On(r, r.sessions[id].device)
  }

  function ListedOf(r: Registry, u: UserId): set<SessionId> {
    set id | id in r.sessions && r.sessions[id].user == u && Listed(r, id)
  }

  /** Counts are exact and capped. */
  ghost predicate CountsFit(r: Registry) {
    && (forall u :: CountOf(r, u) == |ListedOf(r, u)| <= MAX_PER_USER)
    && (forall u <- r.counts :: r.counts[u] > 0)
  }

  /** Whatever is not listed has finished, and generations only grow. */
  predicate ListFits(r: Registry) {
    && (forall d <- r.byDevice, id <- r.byDevice[d] :: id in r.sessions && r.sessions[id].device == d)
    && (forall id <- r.sessions :: !Listed(r, id) ==> r.sessions[id].done)
    && (forall id <- r.sessions :: r.sessions[id].generation <= Generation(r, r.sessions[id].device))
  }

  ghost predicate RegistryFits(r: Registry) {
    CountsFit(r) && ListFits(r)
  }

  lemma RegisterLists(r: Registry, id: SessionId, user: UserId, device: DeviceId, generation: nat)
    requires ListFits(r) && id !in r.sessions && generation == Generation(r, device)
    ensures var r' := Register(r, id, user, device, generation);
            ListFits(r') && forall k :: Listed(r', k) <==> k == id || Listed(r, k)
  {
    var r' := Register(r, id, user, device, generation);
    forall k ensures Listed(r', k) <==> k == id || Listed(r, k) {
      assert k in r.sessions && k != id ==> (k in On(r', r.sessions[k].device) <==> k in On(r, r.sessions[k].device));
    }
  }

  lemma ListedGrows(r: Registry, r': Registry, id: SessionId, u: UserId)
    requires id !in r.sessions && r'.sessions.Keys == r.sessions.Keys + {id}
    requires forall k <- r.sessions :: r'.sessions[k].user == r.sessions[k].user
    requires forall k :: Listed(r', k) <==> k == id || Listed(r, k)
    ensures |ListedOf(r', u)| == |ListedOf(r, u)| + if r'.sessions[id].user == u then 1 else 0
  {
    var had, has := ListedOf(r, u), ListedOf(r', u);
    forall k | k != id ensures k in has <==> k in had {
      assert Listed(r', k) <==> Listed(r, k);
    }
    assert id !in had && (id in has <==> r'.sessions[id].user == u);
    assert has == if r'.sessions[id].user == u then had + {id} else had;
  }

  lemma CountsGrow(r: Registry, r': Registry, id: SessionId, user: UserId)
    requires CountsFit(r) && CountOf(r, user) < MAX_PER_USER && r'.counts == r.counts[user := CountOf(r, user) + 1]
    requires id !in r.sessions && r'.sessions.Keys == r.sessions.Keys + {id} && r'.sessions[id].user == user
    requires forall k <- r.sessions :: r'.sessions[k].user == r.sessions[k].user
    requires forall k :: Listed(r', k) <==> k == id || Listed(r, k)
    ensures CountsFit(r')
  {
    forall u ensures CountOf(r', u) == |ListedOf(r', u)| <= MAX_PER_USER {
      assert CountOf(r, u) == |ListedOf(r, u)|;
      ListedGrows(r, r', id, u);
    }
    forall u | u in r'.counts ensures r'.counts[u] > 0 {
      assert CountOf(r, u) == |ListedOf(r, u)|;
    }
  }

  lemma RegisterAdds(r: Registry, id: SessionId, user: UserId, device: DeviceId, generation: nat)
    requires id !in r.sessions
    ensures var r' := Register(r, id, user, device, generation);
            && r'.counts == r.counts[user := CountOf(r, user) + 1]
            && r'.sessions.Keys == r.sessions.Keys + {id} && r'.sessions[id].user == user
            && forall k <- r.sessions :: r'.sessions[k].user == r.sessions[k].user
  {
  }

  lemma RegisterFits(r: Registry, id: SessionId, user: UserId, device: DeviceId, generation: nat)
    requires RegistryFits(r) && id !in r.sessions && CountOf(r, user) < MAX_PER_USER && generation == Generation(r, device)
    ensures RegistryFits(Register(r, id, user, device, generation))
  {
    RegisterLists(r, id, user, device, generation);
    RegisterAdds(r, id, user, device, generation);
    CountsGrow(r, Register(r, id, user, device, generation), id, user);
  }

  lemma ReleaseLists(r: Registry, id: SessionId)
    requires ListFits(r) && id in r.sessions
    ensures var r' := Release(r, id);
            && r'.sessions == Finish(r, id).sessions && r'.generations == r.generations && r'.closed == r.closed
            && ListFits(r') && forall k :: Listed(r', k) <==> k != id && Listed(r, k)
  {
    var r' := Release(r, id);
    forall k ensures Listed(r', k) <==> k != id && Listed(r, k) {
      assert k in r.sessions && k != id ==> (k in On(r', r.sessions[k].device) <==> k in On(r, r.sessions[k].device));
    }
  }

  lemma ListedShrinks(r: Registry, r': Registry, id: SessionId, u: UserId)
    requires id in r.sessions && r'.sessions.Keys == r.sessions.Keys
    requires forall k <- r.sessions :: r'.sessions[k].user == r.sessions[k].user
    requires forall k :: Listed(r', k) <==> k != id && Listed(r, k)
    ensures |ListedOf(r', u)| == |ListedOf(r, u)| - if Listed(r, id) && r.sessions[id].user == u then 1 else 0
  {
    assert ListedOf(r', u) == if r.sessions[id].user == u then ListedOf(r, u) - {id} else ListedOf(r, u);
    assert id in ListedOf(r, u) <==> Listed(r, id) && r.sessions[id].user == u;
  }

  lemma ReleaseCounts(r: Registry, id: SessionId)
    requires CountsFit(r) && id in r.sessions && Release(r, id).sessions == Finish(r, id).sessions
    requires forall k :: Listed(Release(r, id), k) <==> k != id && Listed(r, k)
    ensures CountsFit(Release(r, id))
  {
    var r' := Release(r, id);
    forall u ensures CountOf(r', u) == |ListedOf(r', u)| <= MAX_PER_USER {
      assert CountOf(r, u) == |ListedOf(r, u)|;
      ListedShrinks(r, r', id, u);
    }
    forall u | u in r'.counts ensures r'.counts[u] > 0 {
      assert CountOf(r', u) == |ListedOf(r', u)|;
    }
  }

  lemma ReleaseFits(r: Registry, id: SessionId)
    requires RegistryFits(r) && id in r.sessions
    ensures RegistryFits(Release(r, id))
  {
    ReleaseLists(r, id);
    ReleaseCounts(r, id);
  }

  lemma SameListFits(r: Registry, r': Registry)
    requires RegistryFits(r) && r'.counts == r.counts && r'.byDevice == r.byDevice && r'.sessions.Keys == r.sessions.Keys
    requires forall id <- r.sessions :: r'.sessions[id] == r.sessions[id].(canceled := r'.sessions[id].canceled)
    requires forall d :: Generation(r, d) <= Generation(r', d)
    ensures RegistryFits(r')
  {
    forall u ensures CountOf(r', u) == |ListedOf(r', u)| <= MAX_PER_USER {
      assert ListedOf(r', u) == ListedOf(r, u);
    }
  }

  // ---------------------------------------------------------------------------
  // The invariant of the step system

  predicate Covers(scope: Scope, s: Session) {
    scope.Before? ==> s.device == scope.device && s.generation < scope.generation
  }

  /** Every covered session has finished or is still waited for, and the scope admits no new one. */
  predicate JoinFits(r: Registry, j: Join) {
    && (forall id <- r.sessions :: Covers(j.scope, r.sessions[id]) ==> r.sessions[id].done || id in j.waiting)
    && (j.scope.Before? ==> j.scope.generation <= Generation(r, j.scope.device))
    && (j.scope.Everything? ==> r.closed)
    && (j.returned ==> j.waiting == {})
  }

  ghost predicate Inv(w: World) {
    && RegistryFits(w.reg)
    && (forall j <- w.joins :: JoinFits(w.reg, w.joins[j]))
    && (forall q <- w.requests :: w.requests[q].generation <= Generation(w.reg, w.requests[q].device))
  }

  lemma NewFits()
    ensures Inv(NEW)
  {
    assert forall u :: ListedOf(NEW_REGISTRY, u) == {};
  }

  /** Sessions stay what they are, finished ones stay finished, and new ones carry the current generation. */
  ghost predicate Progress(r: Registry, r': Registry) {
    && (r.closed ==> r'.closed) && (forall d :: Generation(r, d) <= Generation(r', d))
    && forall id <- r'.sessions ::
         if id in r.sessions
         then r'.sessions[id] == r.sessions[id].(canceled := r'.sessions[id].canceled, done := r'.sessions[id].done)
              && (r.sessions[id].done ==> r'.sessions[id].done)
         else !r.closed && r'.sessions[id].generation == Generation(r, r'.sessions[id].device)
  }

  lemma JoinStaysFit(r: Registry, r': Registry, j: Join)
    requires JoinFits(r, j) && Progress(r, r')
    ensures JoinFits(r', j)
  {
  }

  lemma OthersStayFit(w: World, r': Registry)
    requires Inv(w) && Progress(w.reg, r') && RegistryFits(r')
    ensures Inv(w.(reg := r'))
  {
    forall j | j in w.joins ensures JoinFits(r', w.joins[j]) {
      JoinStaysFit(w.reg, r', w.joins[j]);
    }
  }

  lemma NewJoinFits(w: World, j: JoinId, join: Join)
    requires Inv(w) && JoinFits(w.reg, join)
    ensures Inv(w.(joins := w.joins[j := join]))
  {
  }

  lemma AdmitKeepsInv(w: World, q: RequestId, id: SessionId, parentDone: bool)
    requires Inv(w) && Enabled(w, Admit(q, id, parentDone))
    ensures Inv(Take(w, Admit(q, id, parentDone)))
  {
    var r := w.requests[q];
    if Verdict(w.reg, r.user, r.device, r.generation, parentDone).Admitted? {
      RegisterFits(w.reg, id, r.user, r.device, r.generation);
      OthersStayFit(w, Register(w.reg, id, r.user, r.device, r.generation));
    }
  }

  lemma EndKeepsInv(w: World, id: SessionId)
    requires Inv(w) && id in w.reg.sessions
    ensures Inv(w.(reg := Release(w.reg, id)))
  {
    ReleaseFits(w.reg, id);
    ReleaseLists(w.reg, id);
    OthersStayFit(w, Release(w.reg, id));
  }

  lemma OlderAreListed(r: Registry, device: DeviceId)
    requires ListFits(r)
    ensures var reg := Advance(r, device);
            JoinFits(reg, Join(Before(device, Generation(reg, device)), On(reg, device), On(reg, device), false))
  {
    var reg := Advance(r, device);
    forall id | id in reg.sessions && reg.sessions[id].device == device ensures reg.sessions[id].done || id in On(reg, device) {
      assert Listed(r, id) ==> id in On(reg, device);
    }
  }

  lemma CancelDeviceKeepsInv(w: World, j: JoinId, device: DeviceId)
    requires Inv(w)
    ensures var reg := Advance(w.reg, device);
            var join := Join(Before(device, Generation(reg, device)), On(reg, device), On(reg, device), false);
            Inv(w.(reg := reg, joins := w.joins[j := join]))
  {
    var reg := Advance(w.reg, device);
    SameListFits(w.reg, reg);
    OthersStayFit(w, reg);
    OlderAreListed(w.reg, device);
    NewJoinFits(w.(reg := reg), j, Join(Before(device, Generation(reg, device)), On(reg, device), On(reg, device), false));
  }

  lemma AllAreListed(r: Registry)
    requires ListFits(r)
    ensures JoinFits(r.(closed := true), Join(Everything, All(r), All(r), false))
  {
    forall id | id in r.sessions ensures r.sessions[id].done || id in All(r) {
      assert Listed(r, id) ==> id in All(r);
    }
  }

  lemma CloseKeepsInv(w: World, j: JoinId)
    requires Inv(w)
    ensures Inv(w.(reg := w.reg.(closed := true), joins := w.joins[j := Join(Everything, All(w.reg), All(w.reg), false)]))
  {
    var reg := w.reg.(closed := true);
    SameListFits(w.reg, reg);
    OthersStayFit(w, reg);
    AllAreListed(w.reg);
    NewJoinFits(w.(reg := reg), j, Join(Everything, All(w.reg), All(w.reg), false));
  }

  lemma CancelOneKeepsInv(w: World, j: JoinId, id: SessionId)
    requires Inv(w) && j in w.joins && id in w.reg.sessions
    ensures Inv(w.(reg := Cancel(w.reg, id), joins := w.joins[j := w.joins[j].(toCancel := w.joins[j].toCancel - {id})]))
  {
    var reg := Cancel(w.reg, id);
    SameListFits(w.reg, reg);
    OthersStayFit(w, reg);
    NewJoinFits(w.(reg := reg), j, w.joins[j].(toCancel := w.joins[j].toCancel - {id}));
  }

  lemma StepKeepsInv(w: World, s: Step)
    requires Inv(w) && Enabled(w, s)
    ensures Inv(Take(w, s))
  {
    match s
    case Admit(q, id, parentDone) => AdmitKeepsInv(w, q, id, parentDone);
    case End(id) => EndKeepsInv(w, id);
    case CancelDevice(j, device) => CancelDeviceKeepsInv(w, j, device);
    case Close(j) => CloseKeepsInv(w, j);
    case CancelOne(j, id) => CancelOneKeepsInv(w, j, id);
    case _ =>
  }

  lemma {:induction false} RunKeepsInv(ws: seq<World>, steps: seq<Step>, i: nat)
    requires Run(ws, steps) && i < |ws|
    ensures Inv(ws[i])
  {
    if i == 0 {
      NewFits();
    } else {
      RunKeepsInv(ws, steps, i - 1);
      StepKeepsInv(ws[i - 1], steps[i - 1]);
    }
  }

  // ---------------------------------------------------------------------------
  // Theorems

  /** A user's count is the number of registered terminals, never above the maximum; an unregistered one has finished. */
  lemma CountsAreExact(ws: seq<World>, steps: seq<Step>, i: nat, u: UserId, id: SessionId)
    requires Run(ws, steps) && i < |ws|
    ensures CountOf(ws[i].reg, u) == |ListedOf(ws[i].reg, u)| <= MAX_PER_USER
    ensures id in ws[i].reg.sessions && !Listed(ws[i].reg, id) ==> ws[i].reg.sessions[id].done
  {
    RunKeepsInv(ws, steps, i);
  }

  /** When CancelDevice or Close has returned, every session it covers has finished. */
  lemma ReturnedMeansFinished(ws: seq<World>, steps: seq<Step>, i: nat, j: JoinId, id: SessionId)
    requires Run(ws, steps) && i < |ws| && j in ws[i].joins && ws[i].joins[j].returned
    requires id in ws[i].reg.sessions && Covers(ws[i].joins[j].scope, ws[i].reg.sessions[id])
    ensures ws[i].reg.sessions[id].done
  {
    RunKeepsInv(ws, steps, i);
    assert JoinFits(ws[i].reg, ws[i].joins[j]);
  }

  /** From the moment CancelDevice or Close has started, no request from before is admitted. */
  lemma OldRequestsAreRefused(ws: seq<World>, steps: seq<Step>, i: nat, j: JoinId, q: RequestId, parentDone: bool)
    requires Run(ws, steps) && i < |ws| && j in ws[i].joins && q in ws[i].requests
    requires var r := ws[i].requests[q]; Covers(ws[i].joins[j].scope, Session(r.user, r.device, r.generation, false, false))
    ensures var r := ws[i].requests[q];
            !Verdict(ws[i].reg, r.user, r.device, r.generation, parentDone).Admitted?
  {
    RunKeepsInv(ws, steps, i);
    assert JoinFits(ws[i].reg, ws[i].joins[j]);
  }

  /** Later requests of the device are not affected: they carry a generation the cancellation does not cover. */
  lemma LaterRequestsAreFree(ws: seq<World>, steps: seq<Step>, i: nat, j: JoinId, q: RequestId, user: UserId)
    requires Run(ws, steps) && i < |ws| && j in ws[i].joins && ws[i].joins[j].scope.Before? && q !in ws[i].requests
    ensures var s := Snapshot(q, user, ws[i].joins[j].scope.device);
            var r := Take(ws[i], s).requests[q];
            !Covers(ws[i].joins[j].scope, Session(r.user, r.device, r.generation, false, false))
  {
    RunKeepsInv(ws, steps, i);
    assert JoinFits(ws[i].reg, ws[i].joins[j]);
  }
}
