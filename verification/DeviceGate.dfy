/**
 The keyed, cancellable mutex that orders unpairing against tunnel
 publication.  An entry is created for the first user of a device and deleted
 after the last, so one device may see many entries over time.  A step is one
 critical section or one channel operation; they interleave freely.
 */
module DeviceGate {
  import opened Base

  type DeviceId = int
  type EntryId = int
  type ClientId = int

  datatype Entry = Entry(device: DeviceId, token: bool, refs: int)

  /**
   Where a caller of LockDevice is: waiting for the token, holding it but not yet
   past the final context check, holding the lock, or about to drop its reference.
   */
  datatype Place = Waiting | Checking | Holding | Dropping

  datatype Client = Client(device: DeviceId, entry: EntryId, place: Place)

  /** `entries` is the gate's map; `heap` keeps every entry ever created. */
  datatype Gate = Gate(entries: map<DeviceId, EntryId>, heap: map<EntryId, Entry>, clients: map<ClientId, Client>)

  const NEW := Gate(map[], map[], map[])

  datatype Step =
    | Enter(t: ClientId, device: DeviceId, spare: EntryId)
    | Cancel(t: ClientId)
    | Acquire(t: ClientId)
    | Refuse(t: ClientId)
    | Grant(t: ClientId)
    | Unlock(t: ClientId)
    | Drop(t: ClientId)

  predicate At(g: Gate, t: ClientId, place: Place) {
    t in g.clients && g.clients[t].place == place && g.clients[t].entry in g.heap
  }

  /** Receiving needs a token, sending one back needs an empty channel. */
  predicate Enabled(g: Gate, s: Step) {
    match s
    case Enter(t, device, spare) => t !in g.clients && spare !in g.heap && (device in g.entries ==> g.entries[device] in g.heap)
    case Cancel(t) => At(g, t, Waiting)
    case Acquire(t) => At(g, t, Waiting) && g.heap[g.clients[t].entry].token
    case Refuse(t) => At(g, t, Checking) && !g.heap[g.clients[t].entry].token
    case Grant(t) => At(g, t, Checking)
    case Unlock(t) => At(g, t, Holding) && !g.heap[g.clients[t].entry].token
    case Drop(t) => At(g, t, Dropping)
  }

  function Move(g: Gate, t: ClientId, place: Place, token: bool): Gate
    requires t in g.clients && g.clients[t].entry in g.heap
  {
    var e := g.clients[t].entry;
    g.(heap := g.heap[e := g.heap[e].(token := token)], clients := g.clients[t := g.clients[t].(place := place)])
  }

  function Take(g: Gate, s: Step): Gate
    requires Enabled(g, s)
  {
    match s
    case Enter(t, device, spare) =>
      if device in g.entries then
        var e := g.entries[device];
        g.(heap := g.heap[e := g.heap[e].(refs := g.heap[e].refs + 1)], clients := g.clients[t := Client(device, e, Waiting)])
      else
        Gate(g.entries[device := spare], g.heap[spare := Entry(device, true, 1)],
             g.clients[t := Client(device, spare, Waiting)])
    case Cancel(t) => Move(g, t, Dropping, g.heap[g.clients[t].entry].token)
    case Acquire(t) => Move(g, t, Checking, false)
    case Refuse(t) => Move(g, t, Dropping, true)
    case Grant(t) => Move(g, t, Holding, g.heap[g.clients[t].entry].token)
    case Unlock(t) => Move(g, t, Dropping, true)
    case Drop(t) =>
      var c := g.clients[t];
      var refs := g.heap[c.entry].refs - 1;
      var gone := refs == 0 && c.device in g.entries && g.entries[c.device] == c.entry;
      Gate(if gone then g.entries - {c.device} else g.entries, g.heap[c.entry := g.heap[c.entry].(refs := refs)],
           g.clients - {t})
  }

  // ---------------------------------------------------------------------------
  // The invariant

  function Users(g: Gate, e: EntryId): set<ClientId> {
    set t | t in g.clients && g.clients[t].entry == e
  }

  predicate Owns(c: Client) {
    c.place.Checking? || c.place.Holding?
  }

  function Owners(g: Gate, e: EntryId): set<ClientId> {
    set t | t in g.clients && g.clients[t].entry == e && Owns(g.clients[t])
  }

  /** refs counts exactly the users, and token plus owners is one. */
  predicate EntryFits(g: Gate, e: EntryId)
    requires e in g.heap
  {
    && g.heap[e].refs == |Users(g, e)|
    && |Owners(g, e)| + Count(g.heap[e].token) == 1
    && (Users(g, e) != {} <==> g.heap[e].device in g.entries && g.entries[g.heap[e].device] == e)
  }

  ghost predicate Inv(g: Gate) {
    && (forall t <- g.clients :: g.clients[t].entry in g.heap && g.heap[g.clients[t].entry].device == g.clients[t].device)
    && (forall d <- g.entries :: g.entries[d] in g.heap && g.heap[g.entries[d]].device == d)
    && (forall e <- g.heap :: EntryFits(g, e))
  }

  /** Entries other than `e` are not affected by a step of a client of `e`. */
  lemma OtherEntry(g: Gate, g': Gate, e: EntryId, t: ClientId, k: EntryId)
    requires k in g.heap && k in g'.heap && g'.heap[k] == g.heap[k] && k != e && EntryFits(g, k)
    requires forall u | u != t :: u in g.clients <==> u in g'.clients
    requires forall u | u != t && u in g.clients :: g'.clients[u] == g.clients[u]
    requires t in g.clients ==> g.clients[t].entry == e
    requires t in g'.clients ==> g'.clients[t].entry == e
    requires (g.heap[k].device in g.entries && g.entries[g.heap[k].device] == k)
         <==> (g.heap[k].device in g'.entries && g'.entries[g.heap[k].device] == k)
    ensures EntryFits(g', k)
  {
    forall u ensures u in Users(g', k) <==> u in Users(g, k) {
      assert u != t ==> (u in g.clients <==> u in g'.clients);
    }
    forall u ensures u in Owners(g', k) <==> u in Owners(g, k) {
      assert u != t ==> (u in g.clients <==> u in g'.clients);
    }
    assert Users(g', k) == Users(g, k);
    assert Owners(g', k) == Owners(g, k);
  }

  function Count(b: bool): int {
    if b then 1 else 0
  }

  lemma OwnersMoved(g: Gate, t: ClientId, place: Place, token: bool)
    requires t in g.clients && g.clients[t].entry in g.heap
    ensures var g', e := Move(g, t, place, token), g.clients[t].entry;
            && Users(g', e) == Users(g, e)
            && |Owners(g', e)| - Count(Owns(g'.clients[t])) == |Owners(g, e)| - Count(Owns(g.clients[t]))
  {
    var g', e := Move(g, t, place, token), g.clients[t].entry;
    assert Users(g', e) == Users(g, e);
    if Owns(g.clients[t]) == Owns(g'.clients[t]) {
      assert Owners(g', e) == Owners(g, e);
    } else if Owns(g.clients[t]) {
      assert Owners(g', e) == Owners(g, e) - {t};
    } else {
      assert Owners(g', e) == Owners(g, e) + {t};
    }
  }

  lemma MoveKeepsInv(g: Gate, t: ClientId, place: Place, token: bool)
    requires Inv(g) && t in g.clients
    requires Count(Owns(g.clients[t])) + Count(g.heap[g.clients[t].entry].token)
          == Count(Owns(g.clients[t].(place := place))) + Count(token)
    ensures Inv(Move(g, t, place, token))
  {
    var g', e := Move(g, t, place, token), g.clients[t].entry;
    assert EntryFits(g, e);
    OwnersMoved(g, t, place, token);
    forall k | k in g'.heap ensures EntryFits(g', k) {
      if k != e {
        assert EntryFits(g, k);
        OtherEntry(g, g', e, t, k);
      }
    }
  }

  lemma EnterExistingKeepsInv(g: Gate, t: ClientId, device: DeviceId, spare: EntryId)
    requires Inv(g) && Enabled(g, Enter(t, device, spare)) && device in g.entries
    ensures Inv(Take(g, Enter(t, device, spare)))
  {
    var g', e := Take(g, Enter(t, device, spare)), g.entries[device];
    assert EntryFits(g, e);
    assert Users(g', e) == Users(g, e) + {t};
    assert Owners(g', e) == Owners(g, e);
    forall k | k in g'.heap ensures EntryFits(g', k) {
      if k != e {
        assert EntryFits(g, k);
        OtherEntry(g, g', e, t, k);
      }
    }
  }

  lemma EnterNewKeepsInv(g: Gate, t: ClientId, device: DeviceId, spare: EntryId)
    requires Inv(g) && Enabled(g, Enter(t, device, spare)) && device !in g.entries
    ensures Inv(Take(g, Enter(t, device, spare)))
  {
    var g' := Take(g, Enter(t, device, spare));
    assert forall u <- g.clients :: g.clients[u].entry != spare;
    assert Users(g', spare) == {t};
    assert Owners(g', spare) == {};
    forall k | k in g'.heap ensures EntryFits(g', k) {
      if k != spare {
        assert EntryFits(g, k);
        OtherEntry(g, g', spare, t, k);
      }
    }
  }

  lemma DropKeepsInv(g: Gate, t: ClientId)
    requires Inv(g) && At(g, t, Dropping)
    ensures Inv(Take(g, Drop(t)))
  {
    var g', e := Take(g, Drop(t)), g.clients[t].entry;
    assert EntryFits(g, e);
    assert t in Users(g, e);
    assert Users(g', e) == Users(g, e) - {t};
    assert Owners(g', e) == Owners(g, e);
    forall k | k in g'.heap ensures EntryFits(g', k) {
      if k != e {
        assert EntryFits(g, k);
        OtherEntry(g, g', e, t, k);
      }
    }
  }

  lemma StepKeepsInv(g: Gate, s: Step)
    requires Inv(g) && Enabled(g, s)
    ensures Inv(Take(g, s))
  {
    match s
    case Enter(t, device, spare) =>
      if device in g.entries {
        EnterExistingKeepsInv(g, t, device, spare);
      } else {
        EnterNewKeepsInv(g, t, device, spare);
      }
    case Drop(t) => DropKeepsInv(g, t);
    case Cancel(t) => MoveKeepsInv(g, t, Dropping, g.heap[g.clients[t].entry].token);
    case Acquire(t) => MoveKeepsInv(g, t, Checking, false);
    case Refuse(t) => MoveKeepsInv(g, t, Dropping, true);
    case Grant(t) => MoveKeepsInv(g, t, Holding, g.heap[g.clients[t].entry].token);
    case Unlock(t) => MoveKeepsInv(g, t, Dropping, true);
  }

  /** A step moves one client only, and entries are never taken away from the others. */
  lemma StepMovesOne(g: Gate, s: Step)
    requires Enabled(g, s)
    ensures var g' := Take(g, s);
            && (forall u | u != s.t && u in g.clients :: u in g'.clients && g'.clients[u] == g.clients[u])
            && (forall e <- g.heap :: e in g'.heap)
  {
  }

  // ---------------------------------------------------------------------------
  // Runs

  ghost predicate Run(gs: seq<Gate>, steps: seq<Step>) {
    && |gs| == |steps| + 1 && gs[0] == NEW
    && forall i :: 0 <= i < |steps| ==> Enabled(gs[i], steps[i]) && gs[i + 1] == Take(gs[i], steps[i])
  }

  lemma {:induction false} RunKeepsInv(gs: seq<Gate>, steps: seq<Step>, i: nat)
    requires Run(gs, steps) && i < |gs|
    ensures Inv(gs[i])
  {
    if i > 0 {
      RunKeepsInv(gs, steps, i - 1);
      StepKeepsInv(gs[i - 1], steps[i - 1]);
    }
  }

  lemma SingletonOrEmpty(s: set<ClientId>, a: ClientId, b: ClientId)
    requires |s| <= 1 && a in s && b in s
    ensures a == b
  {
    assert |s - {a}| == |s| - 1;
  }

  lemma AtMostOneOwner(g: Gate, a: ClientId, b: ClientId)
    requires Inv(g) && a in g.clients && b in g.clients
    requires Owns(g.clients[a]) && Owns(g.clients[b]) && g.clients[a].device == g.clients[b].device
    ensures a == b
  {
    var e, k := g.clients[a].entry, g.clients[b].entry;
    assert EntryFits(g, e) && EntryFits(g, k);
    assert a in Users(g, e) && b in Users(g, k);
    assert e == k;
    assert a in Owners(g, e) && b in Owners(g, e);
    SingletonOrEmpty(Owners(g, e), a, b);
  }

  /** Per device, at most one holder exists, over all the entries the device ever had. */
  lemma MutualExclusion(gs: seq<Gate>, steps: seq<Step>, i: nat, a: ClientId, b: ClientId)
    requires Run(gs, steps) && i < |gs| && At(gs[i], a, Holding) && At(gs[i], b, Holding)
    requires gs[i].clients[a].device == gs[i].clients[b].device
    ensures a == b
  {
    RunKeepsInv(gs, steps, i);
    AtMostOneOwner(gs[i], a, b);
  }

  /** Nothing leaks: a device has an entry exactly while somebody is using it. */
  lemma EntriesAreInUse(gs: seq<Gate>, steps: seq<Step>, i: nat, device: DeviceId)
    requires Run(gs, steps) && i < |gs|
    ensures device in gs[i].entries <==> exists t :: t in gs[i].clients && gs[i].clients[t].device == device
  {
    var g := gs[i];
    RunKeepsInv(gs, steps, i);
    if device in g.entries {
      assert EntryFits(g, g.entries[device]);
      var t := Member(Users(g, g.entries[device]));
    }
    if t :| t in g.clients && g.clients[t].device == device {
      assert EntryFits(g, g.clients[t].entry);
      assert t in Users(g, g.clients[t].entry);
    }
  }

  /** An entry is removed only by the last of its users, and it is the one in the map. */
  lemma OnlyUnusedEntriesGo(g: Gate, s: Step, device: DeviceId)
    requires Inv(g) && Enabled(g, s) && device in g.entries && device !in Take(g, s).entries
    ensures s.Drop? && g.clients[s.t].entry == g.entries[device] && Users(g, g.entries[device]) == {s.t}
  {
    var e := g.entries[device];
    assert EntryFits(g, e);
    assert s.Drop? && g.clients[s.t].entry == e && |Users(g, e)| == 1;
    forall u | u in Users(g, e) ensures u == s.t {
      SingletonOrEmpty(Users(g, e), u, s.t);
    }
  }

  /** Giving the token back never blocks: unlocking and refusing are always possible. */
  lemma GivingBackNeverBlocks(g: Gate, t: ClientId)
    requires Inv(g) && t in g.clients
    ensures g.clients[t].place.Holding? ==> Enabled(g, Unlock(t))
    ensures g.clients[t].place.Checking? ==> Enabled(g, Refuse(t))
  {
    var e := g.clients[t].entry;
    assert EntryFits(g, e);
    if Owns(g.clients[t]) {
      assert t in Owners(g, e);
    }
  }

  /** A free lock can be taken by anyone waiting for it. */
  lemma FreeTokenIsAvailable(g: Gate, t: ClientId)
    requires Inv(g) && t in g.clients && g.clients[t].place.Waiting?
    ensures Enabled(g, Acquire(t)) <==>
            forall u | u in g.clients && g.clients[u].device == g.clients[t].device :: !Owns(g.clients[u])
  {
    var e := g.clients[t].entry;
    assert EntryFits(g, e);
    assert t in Users(g, e);
    if g.heap[e].token {
      forall u | u in g.clients && g.clients[u].device == g.clients[t].device ensures !Owns(g.clients[u]) {
        assert EntryFits(g, g.clients[u].entry);
        assert u in Users(g, g.clients[u].entry);
        assert u !in Owners(g, e);
      }
    } else {
      var u := Member(Owners(g, e));
    }
  }
}
