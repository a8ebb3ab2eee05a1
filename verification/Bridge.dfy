/**
 The callback bridge: mappings from external sessions to invokers, callbacks
 that hold an in-flight slot and take turns at a gate, and closes that join them.
 A step is one critical section, one channel operation or one wait.
 */
module Bridge {
  import opened Base

  type ExternalId = int
  type EntryId = int
  type CallId = int
  type CloserId = int

  /**
   How far closing a mapping has got: marked inactive and cancelled, removed from
   the registry and draining, drained, and forgotten.
   */
  datatype Phase = Open | Marked | Draining | Drained | Gone

  datatype Entry = Entry(external: ExternalId, canceled: bool, inflight: int, gate: bool, failure: bool, phase: Phase)

  /** Where a callback is; `Running` is inside the invoker. */
  datatype Place = Looked | Begun | Gated | Ready | Running | Reporting | Reported | Releasing | Leaving

  datatype Call = Call(entry: EntryId, place: Place)

  datatype ClosePlace = Starting | Joining | Returned

  datatype Closer = Closer(entry: EntryId, place: ClosePlace)

  /** The one goroutine that closes the whole bridge. */
  datatype Shutdown = Shutdown(toStart: set<EntryId>, toJoin: set<EntryId>, done: bool)

  /** `mappings` and `all` are the registries; `entries` keeps every mapping ever made. */
  datatype State = State(
    closed: bool,
    mappings: map<ExternalId, EntryId>,
    all: set<EntryId>,
    entries: map<EntryId, Entry>,
    calls: map<CallId, Call>,
    closers: map<CloserId, Closer>,
    shutdown: Option<Shutdown>)

  const NEW := State(false, map[], {}, map[], map[], map[], None)

  datatype Step =
    | Activate(e: EntryId, external: ExternalId)
    | CancelTurn(e: EntryId)
    | Lookup(c: CallId, external: ExternalId)
    | Begin(c: CallId)
    | Acquire(c: CallId)
    | GiveUp(c: CallId)
    | Check(c: CallId, expired: bool)
    | Invoke(c: CallId)
    | Finish(c: CallId, fatal: bool)
    | Report(c: CallId)
    | Resume(c: CallId)
    | ReleaseGate(c: CallId)
    | Done(c: CallId)
    | NewCloser(k: CloserId, e: EntryId)
    | StartClose(k: CloserId)
    | Join(k: CloserId)
    | Remove(e: EntryId)
    | Drain(e: EntryId)
    | Forget(e: EntryId)
    | CloseBridge
    | StartOne(e: EntryId)
    | JoinOne(e: EntryId)
    | CloseDone

  predicate At(b: State, c: CallId, place: Place) {
    c in b.calls && b.calls[c].place == place && b.calls[c].entry in b.entries
  }

  predicate Is(b: State, e: EntryId, phase: Phase) {
    e in b.entries && b.entries[e].phase == phase
  }

  /** The close-once body has finished: whoever called startClose can go on. */
  predicate Started(b: State, e: EntryId) {
    e in b.entries && !b.entries[e].phase.Open? && !b.entries[e].phase.Marked?
  }

  predicate Quiet(b: State, e: EntryId) {
    e in b.entries && (b.entries[e].phase.Drained? || b.entries[e].phase.Gone?)
  }

  function EntryOf(b: State, c: CallId): EntryId
    requires c in b.calls
  {
    b.calls[c].entry
  }

  predicate CallEnabled(b: State, s: Step) {
    match s
    case Lookup(c, external) => c !in b.calls
    case Begin(c) => At(b, c, Looked)
    case Acquire(c) => At(b, c, Begun) && !b.entries[EntryOf(b, c)].gate
    case GiveUp(c) => At(b, c, Begun)
    case Check(c, _) => At(b, c, Gated)
    case Invoke(c) => At(b, c, Ready)
    case Finish(c, _) => At(b, c, Running)
    case Report(c) => At(b, c, Reporting)
    case Resume(c) => At(b, c, Reported) && Started(b, EntryOf(b, c))
    case ReleaseGate(c) => At(b, c, Releasing)
    case Done(c) => At(b, c, Leaving)
    case _ => false
  }

  predicate CloseEnabled(b: State, s: Step) {
    match s
    case Activate(e, _) => e !in b.entries
    case CancelTurn(e) => e in b.entries
    case NewCloser(k, e) => k !in b.closers && e in b.entries
    case StartClose(k) => k in b.closers && b.closers[k].place.Starting? && b.closers[k].entry in b.entries
    case Join(k) => k in b.closers && b.closers[k].place.Joining? && Quiet(b, b.closers[k].entry)
    case Remove(e) => Is(b, e, Marked)
    case Drain(e) => Is(b, e, Draining) && b.entries[e].inflight == 0
    case Forget(e) => Is(b, e, Drained)
    case CloseBridge => !b.closed
    case StartOne(e) => b.shutdown.Some? && e in b.shutdown.value.toStart && e in b.entries
    case JoinOne(e) => b.shutdown.Some? && b.shutdown.value.toStart == {} && e in b.shutdown.value.toJoin && Quiet(b, e)
    case CloseDone => b.shutdown.Some? && b.shutdown.value.toStart == {} && b.shutdown.value.toJoin == {}
    case _ => false
  }

  predicate Enabled(b: State, s: Step) {
    CallEnabled(b, s) || CloseEnabled(b, s)
  }

  // ---------------------------------------------------------------------------
  // Effects

  function Put(b: State, e: EntryId, v: Entry): State {
    b.(entries := b.entries[e := v])
  }

  function Move(b: State, c: CallId, place: Place): State
    requires c in b.calls
  {
    b.(calls := b.calls[c := b.calls[c].(place := place)])
  }

  /** The close-once body's first section; any later caller changes nothing. */
  function Mark(b: State, e: EntryId): State
    requires e in b.entries
  {
    if b.entries[e].phase.Open? then Put(b, e, b.entries[e].(canceled := true, phase := Marked)) else b
  }

  function DoBegin(b: State, c: CallId): State
    requires c in b.calls && EntryOf(b, c) in b.entries
  {
    var e := EntryOf(b, c);
    if b.entries[e].phase.Open? && !b.entries[e].canceled
    then Move(Put(b, e, b.entries[e].(inflight := b.entries[e].inflight + 1)), c, Begun)
    else b.(calls := b.calls - {c})
  }

  function DoAcquire(b: State, c: CallId): State
    requires c in b.calls && EntryOf(b, c) in b.entries
  {
    Move(Put(b, EntryOf(b, c), b.entries[EntryOf(b, c)].(gate := true)), c, Gated)
  }

  function DoReport(b: State, c: CallId): State
    requires c in b.calls && EntryOf(b, c) in b.entries
  {
    var e := EntryOf(b, c);
    Move(Mark(Put(b, e, b.entries[e].(failure := true)), e), c, Reported)
  }

  function DoReleaseGate(b: State, c: CallId): State
    requires c in b.calls && EntryOf(b, c) in b.entries
  {
    Move(Put(b, EntryOf(b, c), b.entries[EntryOf(b, c)].(gate := false)), c, Leaving)
  }

  function DoDone(b: State, c: CallId): State
    requires c in b.calls && EntryOf(b, c) in b.entries
  {
    var e := EntryOf(b, c);
    Put(b, e, b.entries[e].(inflight := b.entries[e].inflight - 1)).(calls := b.calls - {c})
  }

  function DoActivate(b: State, e: EntryId, external: ExternalId): State {
    if b.closed || external in b.mappings then b
    else Put(b, e, Entry(external, false, 0, false, false, Open)).(mappings := b.mappings[external := e], all := b.all + {e})
  }

  function DoLookup(b: State, c: CallId, external: ExternalId): State {
    if b.closed || external !in b.mappings then b
    else b.(calls := b.calls[c := Call(b.mappings[external], Looked)])
  }

  function DoRemove(b: State, e: EntryId): State
    requires e in b.entries
  {
    var x := b.entries[e].external;
    Put(b, e, b.entries[e].(phase := Draining))
    .(mappings := if x in b.mappings && b.mappings[x] == e then b.mappings - {x} else b.mappings)
  }

  function SetPhase(b: State, e: EntryId, phase: Phase): State
    requires e in b.entries
  {
    Put(b, e, b.entries[e].(phase := phase))
  }

  function TakeCall(b: State, s: Step): State
    requires CallEnabled(b, s)
  {
    match s
    case Lookup(c, external) => DoLookup(b, c, external)
    case Begin(c) => DoBegin(b, c)
    case Acquire(c) => DoAcquire(b, c)
    case GiveUp(c) => Move(b, c, Leaving)
    case Check(c, expired) =>
      if expired || b.entries[EntryOf(b, c)].canceled then Move(b, c, Releasing) else Move(b, c, Ready)
    case Invoke(c) => Move(b, c, Running)
    case Finish(c, fatal) => if fatal then Move(b, c, Reporting) else Move(b, c, Releasing)
    case Report(c) => DoReport(b, c)
    case Resume(c) => Move(b, c, Releasing)
    case ReleaseGate(c) => DoReleaseGate(b, c)
    case Done(c) => DoDone(b, c)
  }

  function TakeClose(b: State, s: Step): State
    requires CloseEnabled(b, s)
  {
    match s
    case Activate(e, external) => DoActivate(b, e, external)
    case CancelTurn(e) => Put(b, e, b.entries[e].(canceled := true))
    case NewCloser(k, e) => b.(closers := b.closers[k := Closer(e, Starting)])
    case StartClose(k) => Mark(b, b.closers[k].entry).(closers := b.closers[k := b.closers[k].(place := Joining)])
    case Join(k) => b.(closers := b.closers[k := b.closers[k].(place := Returned)])
    case Remove(e) => DoRemove(b, e)
    case Drain(e) => SetPhase(b, e, Drained)
    case Forget(e) => SetPhase(b, e, Gone).(all := b.all - {e})
    case CloseBridge => b.(closed := true, shutdown := Some(Shutdown(b.all, b.all, false)))
    case StartOne(e) => Mark(b, e).(shutdown := Some(b.shutdown.value.(toStart := b.shutdown.value.toStart - {e})))
    case JoinOne(e) => b.(shutdown := Some(b.shutdown.value.(toJoin := b.shutdown.value.toJoin - {e})))
    case CloseDone => b.(shutdown := Some(b.shutdown.value.(done := true)))
  }

  function Take(b: State, s: Step): State
    requires Enabled(b, s)
  {
    if CallEnabled(b, s) then TakeCall(b, s) else TakeClose(b, s)
  }

  ghost predicate Run(bs: seq<State>, steps: seq<Step>) {
    && |bs| == |steps| + 1 && bs[0] == NEW
    && forall i :: 0 <= i < |steps| ==> Enabled(bs[i], steps[i]) && bs[i + 1] == Take(bs[i], steps[i])
  }
}
