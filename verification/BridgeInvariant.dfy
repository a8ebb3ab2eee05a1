/** What every step of the bridge keeps, and what a close that returned guarantees. */
module BridgeInvariant {
  import opened Base
  import opened Bridge

  predicate HasSlot(c: Call) {
    !c.place.Looked?
  }

  predicate HasGate(c: Call) {
    HasSlot(c) && !c.place.Begun? && !c.place.Leaving?
  }

  function Slots(calls: map<CallId, Call>, e: EntryId): set<CallId> {
    set c | c in calls && calls[c].entry == e && HasSlot(calls[c])
  }

  function Gates(calls: map<CallId, Call>, e: EntryId): set<CallId> {
    set c | c in calls && calls[c].entry == e && HasGate(calls[c])
  }

  function Count(b: bool): int {
    if b then 1 else 0
  }

  /** The in-flight counter and the gate are exact, and a drained mapping has no callback left. */
  predicate CountersFit(v: Entry, calls: map<CallId, Call>, e: EntryId) {
    && v.inflight == |Slots(calls, e)| && Count(v.gate) == |Gates(calls, e)|
    && (v.phase.Drained? || v.phase.Gone? ==> v.inflight == 0)
  }

  predicate CallsFit(b: State) {
    && (forall c <- b.calls :: b.calls[c].entry in b.entries)
    && (forall e <- b.entries :: CountersFit(b.entries[e], b.calls, e))
  }

  /** An open mapping is the registered one of its external session, and what is not gone is known to the bridge. */
  predicate RegistriesFit(b: State) {
    && (forall x <- b.mappings :: b.mappings[x] in b.entries && b.entries[b.mappings[x]].external == x)
    && (forall e <- b.entries :: b.entries[e].phase.Open? ==> b.entries[e].external in b.mappings && b.mappings[b.entries[e].external] == e)
    && (forall e <- b.entries :: !b.entries[e].phase.Gone? ==> e in b.all)
  }

  predicate ClosersFit(b: State) {
    forall k <- b.closers ::
      && b.closers[k].entry in b.entries
      && (b.closers[k].place.Joining? ==> !b.entries[b.closers[k].entry].phase.Open?)
      && (b.closers[k].place.Returned? ==> Quiet(b, b.closers[k].entry))
  }

  /** Once the bridge closes, every mapping is still to be joined or drained. */
  predicate ShutdownFits(b: State) {
    && (b.closed <==> b.shutdown.Some?)
    && (b.shutdown.Some? ==>
          && (forall e <- b.entries :: e in b.shutdown.value.toJoin || Quiet(b, e))
          && (b.shutdown.value.done ==> b.shutdown.value.toJoin == {}))
  }

  predicate Inv(b: State) {
    CallsFit(b) && RegistriesFit(b) && ClosersFit(b) && ShutdownFits(b)
  }

  lemma NewFits()
    ensures Inv(NEW)
  {
  }

  // ---------------------------------------------------------------------------
  // One callback changes

  /** The two maps differ at one callback only, and it belongs to one mapping throughout. */
  ghost predicate OneCall(calls: map<CallId, Call>, calls': map<CallId, Call>, c: CallId, e: EntryId) {
    && (forall d | d != c :: d in calls <==> d in calls')
    && (forall d | d != c && d in calls :: calls'[d] == calls[d])
    && (c in calls ==> calls[c].entry == e) && (c in calls' ==> calls'[c].entry == e)
  }

  lemma Without(s: set<CallId>, c: CallId)
    ensures |s - {c}| == |s| - Count(c in s)
  {
    if c !in s {
      assert s - {c} == s;
    }
  }

  lemma SlotsChange(calls: map<CallId, Call>, calls': map<CallId, Call>, c: CallId, e: EntryId)
    requires OneCall(calls, calls', c, e)
    ensures |Slots(calls', e)| - Count(c in calls' && HasSlot(calls'[c])) == |Slots(calls, e)| - Count(c in calls && HasSlot(calls[c]))
    ensures forall k | k != e :: Slots(calls', k) == Slots(calls, k)
  {
    var had, has := Slots(calls, e), Slots(calls', e);
    forall d ensures d in has - {c} <==> d in had - {c} {
      assert d != c ==> (d in calls <==> d in calls');
    }
    assert has - {c} == had - {c};
    Without(had, c);
    Without(has, c);
    assert c in has <==> c in calls' && HasSlot(calls'[c]);
    assert c in had <==> c in calls && HasSlot(calls[c]);
    forall k | k != e ensures Slots(calls', k) == Slots(calls, k) {
      forall d ensures d in Slots(calls', k) <==> d in Slots(calls, k) {
        assert d != c ==> (d in calls <==> d in calls');
      }
    }
  }

  lemma GatesChange(calls: map<CallId, Call>, calls': map<CallId, Call>, c: CallId, e: EntryId)
    requires OneCall(calls, calls', c, e)
    ensures |Gates(calls', e)| - Count(c in calls' && HasGate(calls'[c])) == |Gates(calls, e)| - Count(c in calls && HasGate(calls[c]))
    ensures forall k | k != e :: Gates(calls', k) == Gates(calls, k)
  {
    var had, has := Gates(calls, e), Gates(calls', e);
    forall d ensures d in has - {c} <==> d in had - {c} {
      assert d != c ==> (d in calls <==> d in calls');
    }
    assert has - {c} == had - {c};
    Without(had, c);
    Without(has, c);
    assert c in has <==> c in calls' && HasGate(calls'[c]);
    assert c in had <==> c in calls && HasGate(calls[c]);
    forall k | k != e ensures Gates(calls', k) == Gates(calls, k) {
      forall d ensures d in Gates(calls', k) <==> d in Gates(calls, k) {
        assert d != c ==> (d in calls <==> d in calls');
      }
    }
  }

  /** The mapping's counters follow its callback. */
  predicate Follows(v: Entry, v': Entry, calls: map<CallId, Call>, calls': map<CallId, Call>, c: CallId) {
    && v'.inflight - Count(c in calls' && HasSlot(calls'[c])) == v.inflight - Count(c in calls && HasSlot(calls[c]))
    && Count(v'.gate) - Count(c in calls' && HasGate(calls'[c])) == Count(v.gate) - Count(c in calls && HasGate(calls[c]))
    && (v'.phase.Drained? || v'.phase.Gone? ==> v.phase == v'.phase && v'.inflight <= v.inflight)
  }

  lemma CallStepFits(b: State, c: CallId, e: EntryId, v: Entry, calls: map<CallId, Call>)
    requires CallsFit(b) && e in b.entries && OneCall(b.calls, calls, c, e) && Follows(b.entries[e], v, b.calls, calls, c)
    ensures CallsFit(b.(entries := b.entries[e := v], calls := calls))
  {
    SlotsChange(b.calls, calls, c, e);
    GatesChange(b.calls, calls, c, e);
    var b' := b.(entries := b.entries[e := v], calls := calls);
    forall d | d in calls ensures calls[d].entry in b'.entries {
      assert d != c ==> d in b.calls;
    }
    assert CountersFit(b.entries[e], b.calls, e);
    forall k | k in b'.entries && k != e ensures CountersFit(b'.entries[k], calls, k) {
      assert CountersFit(b.entries[k], b.calls, k);
    }
  }

  /** A change of one mapping that callbacks make: it stays in its phase, or is marked. */
  predicate Keeps(v: Entry, v': Entry) {
    v'.external == v.external && (v'.phase == v.phase || (v.phase.Open? && v'.phase.Marked?))
  }

  lemma OthersFit(b: State, e: EntryId, v: Entry, calls: map<CallId, Call>)
    requires RegistriesFit(b) && ClosersFit(b) && ShutdownFits(b) && e in b.entries && Keeps(b.entries[e], v)
    ensures var b' := b.(entries := b.entries[e := v], calls := calls); RegistriesFit(b') && ClosersFit(b') && ShutdownFits(b')
  {
  }

  lemma CallStepKeepsInv(b: State, c: CallId, e: EntryId, v: Entry, calls: map<CallId, Call>)
    requires Inv(b) && e in b.entries && OneCall(b.calls, calls, c, e) && Follows(b.entries[e], v, b.calls, calls, c)
    requires Keeps(b.entries[e], v)
    ensures Inv(b.(entries := b.entries[e := v], calls := calls))
  {
    CallStepFits(b, c, e, v, calls);
    OthersFit(b, e, v, calls);
  }

  lemma MoveKeepsInv(b: State, c: CallId, place: Place)
    requires Inv(b) && c in b.calls
    requires HasSlot(b.calls[c]) == HasSlot(b.calls[c].(place := place)) && HasGate(b.calls[c]) == HasGate(b.calls[c].(place := place))
    ensures Inv(Move(b, c, place))
  {
    var e := EntryOf(b, c);
    CallStepKeepsInv(b, c, e, b.entries[e], b.calls[c := b.calls[c].(place := place)]);
    assert b.entries[e := b.entries[e]] == b.entries;
  }

  lemma BeginKeepsInv(b: State, c: CallId)
    requires Inv(b) && At(b, c, Looked)
    ensures Inv(DoBegin(b, c))
  {
    var e := EntryOf(b, c);
    if b.entries[e].phase.Open? && !b.entries[e].canceled {
      CallStepKeepsInv(b, c, e, b.entries[e].(inflight := b.entries[e].inflight + 1), b.calls[c := b.calls[c].(place := Begun)]);
    } else {
      CallStepKeepsInv(b, c, e, b.entries[e], b.calls - {c});
      assert b.entries[e := b.entries[e]] == b.entries;
    }
  }

  lemma AcquireKeepsInv(b: State, c: CallId)
    requires Inv(b) && At(b, c, Begun) && !b.entries[EntryOf(b, c)].gate
    ensures Inv(DoAcquire(b, c))
  {
    var e := EntryOf(b, c);
    CallStepKeepsInv(b, c, e, b.entries[e].(gate := true), b.calls[c := b.calls[c].(place := Gated)]);
  }

  lemma GateIsTaken(b: State, c: CallId)
    requires CallsFit(b) && c in b.calls && HasGate(b.calls[c])
    ensures b.entries[EntryOf(b, c)].gate
  {
    assert CountersFit(b.entries[EntryOf(b, c)], b.calls, EntryOf(b, c));
    assert c in Gates(b.calls, EntryOf(b, c));
  }

  lemma ReleaseGateKeepsInv(b: State, c: CallId)
    requires Inv(b) && At(b, c, Releasing)
    ensures Inv(DoReleaseGate(b, c))
  {
    var e := EntryOf(b, c);
    GateIsTaken(b, c);
    CallStepKeepsInv(b, c, e, b.entries[e].(gate := false), b.calls[c := b.calls[c].(place := Leaving)]);
  }

  lemma DoneKeepsInv(b: State, c: CallId)
    requires Inv(b) && At(b, c, Leaving)
    ensures Inv(DoDone(b, c))
  {
    var e := EntryOf(b, c);
    CallStepKeepsInv(b, c, e, b.entries[e].(inflight := b.entries[e].inflight - 1), b.calls - {c});
  }

  lemma ReportKeepsInv(b: State, c: CallId)
    requires Inv(b) && At(b, c, Reporting)
    ensures Inv(DoReport(b, c))
  {
    var e := EntryOf(b, c);
    var v := b.entries[e].(failure := true);
    var v' := if v.phase.Open? then v.(canceled := true, phase := Marked) else v;
    CallStepKeepsInv(b, c, e, v', b.calls[c := b.calls[c].(place := Reported)]);
    assert b.entries[e := v][e := v'] == b.entries[e := v'];
  }

  lemma LookupKeepsInv(b: State, c: CallId, external: ExternalId)
    requires Inv(b) && c !in b.calls
    ensures Inv(DoLookup(b, c, external))
  {
    if !b.closed && external in b.mappings {
      var e := b.mappings[external];
      CallStepKeepsInv(b, c, e, b.entries[e], b.calls[c := Call(e, Looked)]);
      assert b.entries[e := b.entries[e]] == b.entries;
    }
  }

  lemma CallKeepsInv(b: State, s: Step)
    requires Inv(b) && CallEnabled(b, s)
    ensures Inv(TakeCall(b, s))
  {
    match s
    case Lookup(c, external) => LookupKeepsInv(b, c, external);
    case Begin(c) => BeginKeepsInv(b, c);
    case Acquire(c) => AcquireKeepsInv(b, c);
    case GiveUp(c) => MoveKeepsInv(b, c, Leaving);
    case Check(c, expired) => MoveKeepsInv(b, c, Releasing); MoveKeepsInv(b, c, Ready);
    case Invoke(c) => MoveKeepsInv(b, c, Running);
    case Finish(c, fatal) => MoveKeepsInv(b, c, Reporting); MoveKeepsInv(b, c, Releasing);
    case Report(c) => ReportKeepsInv(b, c);
    case Resume(c) => MoveKeepsInv(b, c, Releasing);
    case ReleaseGate(c) => ReleaseGateKeepsInv(b, c);
    case Done(c) => DoneKeepsInv(b, c);
  }

  // ---------------------------------------------------------------------------
  // Closing

  /** A change of one mapping's phase and nothing its callbacks depend on. */
  lemma PhaseFits(b: State, e: EntryId, v: Entry)
    requires CallsFit(b) && e in b.entries && v.inflight == b.entries[e].inflight && v.gate == b.entries[e].gate
    requires v.phase.Drained? || v.phase.Gone? ==> v.inflight == 0
    ensures CallsFit(Put(b, e, v))
  {
    assert CountersFit(b.entries[e], b.calls, e);
    forall k | k in Put(b, e, v).entries && k != e ensures CountersFit(Put(b, e, v).entries[k], b.calls, k) {
      assert CountersFit(b.entries[k], b.calls, k);
    }
  }

  lemma MarkKeepsInv(b: State, e: EntryId)
    requires Inv(b) && e in b.entries
    ensures Inv(Mark(b, e)) && !Mark(b, e).entries[e].phase.Open?
  {
    if b.entries[e].phase.Open? {
      var v := b.entries[e].(canceled := true, phase := Marked);
      PhaseFits(b, e, v);
      OthersFit(b, e, v, b.calls);
      assert b.(entries := b.entries[e := v], calls := b.calls) == Put(b, e, v);
    }
  }

  lemma CancelTurnKeepsInv(b: State, e: EntryId)
    requires Inv(b) && e in b.entries
    ensures Inv(Put(b, e, b.entries[e].(canceled := true)))
  {
    var v := b.entries[e].(canceled := true);
    assert CountersFit(b.entries[e], b.calls, e);
    PhaseFits(b, e, v);
    OthersFit(b, e, v, b.calls);
    assert b.(entries := b.entries[e := v], calls := b.calls) == Put(b, e, v);
  }

  lemma RemoveKeepsInv(b: State, e: EntryId)
    requires Inv(b) && Is(b, e, Marked)
    ensures Inv(DoRemove(b, e))
  {
    PhaseFits(b, e, b.entries[e].(phase := Draining));
  }

  lemma DrainKeepsInv(b: State, e: EntryId)
    requires Inv(b) && Is(b, e, Draining) && b.entries[e].inflight == 0
    ensures Inv(SetPhase(b, e, Drained))
  {
    PhaseFits(b, e, b.entries[e].(phase := Drained));
  }

  lemma ForgetKeepsInv(b: State, e: EntryId)
    requires Inv(b) && Is(b, e, Drained)
    ensures Inv(SetPhase(b, e, Gone).(all := b.all - {e}))
  {
    assert CountersFit(b.entries[e], b.calls, e);
    PhaseFits(b, e, b.entries[e].(phase := Gone));
  }

  lemma NoCalls(calls: map<CallId, Call>, e: EntryId)
    requires forall c <- calls :: calls[c].entry != e
    ensures |Slots(calls, e)| == 0 && |Gates(calls, e)| == 0
  {
    if Slots(calls, e) != {} {
      var c := Member(Slots(calls, e));
    }
    if Gates(calls, e) != {} {
      var c := Member(Gates(calls, e));
    }
  }

  lemma ActivateKeepsInv(b: State, e: EntryId, external: ExternalId)
    requires Inv(b) && e !in b.entries
    ensures Inv(DoActivate(b, e, external))
  {
    var b' := DoActivate(b, e, external);
    NoCalls(b.calls, e);
    forall k | k in b'.entries ensures CountersFit(b'.entries[k], b'.calls, k) {
      assert k in b.entries ==> CountersFit(b.entries[k], b.calls, k);
    }
  }

  lemma ShutdownStepKeepsInv(b: State, s: Step)
    requires Inv(b) && CloseEnabled(b, s) && (s.CloseBridge? || s.StartOne? || s.JoinOne? || s.CloseDone?)
    ensures Inv(TakeClose(b, s))
  {
    match s
    case StartOne(e) => MarkKeepsInv(b, e);
    case _ =>
  }

  lemma CloserStepKeepsInv(b: State, s: Step)
    requires Inv(b) && CloseEnabled(b, s) && (s.NewCloser? || s.StartClose? || s.Join?)
    ensures Inv(TakeClose(b, s))
  {
    match s
    case StartClose(k) => MarkKeepsInv(b, b.closers[k].entry);
    case _ =>
  }

  lemma CloseKeepsInv(b: State, s: Step)
    requires Inv(b) && CloseEnabled(b, s)
    ensures Inv(TakeClose(b, s))
  {
    match s
    case Activate(e, external) => ActivateKeepsInv(b, e, external);
    case CancelTurn(e) => CancelTurnKeepsInv(b, e);
    case Remove(e) => RemoveKeepsInv(b, e);
    case Drain(e) => DrainKeepsInv(b, e);
    case Forget(e) => ForgetKeepsInv(b, e);
    case NewCloser(_, _) | StartClose(_) | Join(_) => CloserStepKeepsInv(b, s);
    case _ => ShutdownStepKeepsInv(b, s);
  }

  lemma StepKeepsInv(b: State, s: Step)
    requires Inv(b) && Enabled(b, s)
    ensures Inv(Take(b, s))
  {
    if CallEnabled(b, s) {
      CallKeepsInv(b, s);
    } else {
      CloseKeepsInv(b, s);
    }
  }

  lemma {:induction false} RunKeepsInv(bs: seq<State>, steps: seq<Step>, i: nat)
    requires Run(bs, steps) && i < |bs|
    ensures Inv(bs[i])
  {
    if i > 0 {
      RunKeepsInv(bs, steps, i - 1);
      StepKeepsInv(bs[i - 1], steps[i - 1]);
    }
  }

  // ---------------------------------------------------------------------------
  // Theorems

  lemma NoSlot(calls: map<CallId, Call>, e: EntryId, c: CallId)
    requires |Slots(calls, e)| == 0 && c in calls && calls[c].entry == e
    ensures !HasSlot(calls[c])
  {
    assert c in Slots(calls, e) <==> HasSlot(calls[c]);
  }

  predicate Joined(b: State, e: EntryId) {
    || (exists k :: k in b.closers && b.closers[k] == Closer(e, Returned))
    || (b.shutdown.Some? && b.shutdown.value.done && e in b.entries)
  }

  /** After a close has returned no callback of the mapping is invoking or on its way to, and none can begin. */
  lemma JoinedMeansQuiet(bs: seq<State>, steps: seq<Step>, i: nat, e: EntryId, c: CallId)
    requires Run(bs, steps) && i < |bs| && Joined(bs[i], e) && c in bs[i].calls && bs[i].calls[c].entry == e
    ensures bs[i].calls[c].place.Looked? && CallEnabled(bs[i], Begin(c)) && c !in TakeCall(bs[i], Begin(c)).calls
  {
    RunKeepsInv(bs, steps, i);
    assert Quiet(bs[i], e);
    assert CountersFit(bs[i].entries[e], bs[i].calls, e);
    NoSlot(bs[i].calls, e, c);
  }

  /** A bridge that has closed makes no new mapping, so nothing is left to invoke. */
  lemma ClosedStaysQuiet(bs: seq<State>, steps: seq<Step>, i: nat, e: EntryId, external: ExternalId)
    requires Run(bs, steps) && i < |bs| && bs[i].shutdown.Some? && bs[i].shutdown.value.done
    ensures DoActivate(bs[i], e, external) == bs[i] && forall c <- bs[i].calls :: bs[i].calls[c].place.Looked?
  {
    RunKeepsInv(bs, steps, i);
    forall c | c in bs[i].calls ensures bs[i].calls[c].place.Looked? {
      JoinedMeansQuiet(bs, steps, i, bs[i].calls[c].entry, c);
    }
  }

  /** At most one mapping per external session is active. */
  lemma OneActivePerExternal(bs: seq<State>, steps: seq<Step>, i: nat, d: EntryId, e: EntryId)
    requires Run(bs, steps) && i < |bs| && Is(bs[i], d, Open) && Is(bs[i], e, Open)
    requires bs[i].entries[d].external == bs[i].entries[e].external
    ensures d == e
  {
    RunKeepsInv(bs, steps, i);
  }

  /** Invocations of one mapping never overlap. */
  lemma InvokesDoNotOverlap(bs: seq<State>, steps: seq<Step>, i: nat, c: CallId, d: CallId)
    requires Run(bs, steps) && i < |bs| && c in bs[i].calls && d in bs[i].calls
    requires bs[i].calls[c].entry == bs[i].calls[d].entry && bs[i].calls[c].place.Running? && bs[i].calls[d].place.Running?
    ensures c == d
  {
    RunKeepsInv(bs, steps, i);
    var e := bs[i].calls[c].entry;
    assert CountersFit(bs[i].entries[e], bs[i].calls, e);
    var holders := Gates(bs[i].calls, e);
    assert c in holders && d in holders;
    assert |holders - {c}| == |holders| - 1;
  }

  /**
   A callback that reports a fatal error is never waiting for its own slot: it can
   report at once, and then go on as soon as the mapping is removed, which nothing
   but that removal delays.
   */
  lemma ReporterGoesOn(bs: seq<State>, steps: seq<Step>, i: nat, c: CallId)
    requires Run(bs, steps) && i < |bs| && c in bs[i].calls
    ensures bs[i].calls[c].place.Reporting? ==> Enabled(bs[i], Report(c))
    ensures bs[i].calls[c].place.Reported? ==>
              || Enabled(bs[i], Resume(c))
              || (Enabled(bs[i], Remove(bs[i].calls[c].entry)) && Enabled(Take(bs[i], Remove(bs[i].calls[c].entry)), Resume(c)))
  {
    RunKeepsInv(bs, steps, i);
    ReportedIsMarked(bs, steps, i, c);
  }

  predicate ReportFits(b: State, c: CallId) {
    c in b.calls && b.calls[c].place.Reported? && b.calls[c].entry in b.entries ==> !b.entries[b.calls[c].entry].phase.Open?
  }

  lemma CallKeepsReports(b: State, s: Step, c: CallId)
    requires CallsFit(b) && RegistriesFit(b) && CallEnabled(b, s) && ReportFits(b, c)
    ensures ReportFits(TakeCall(b, s), c)
  {
    match s
    case Lookup(_, _) =>
    case Begin(_) =>
    case Acquire(_) =>
    case Report(_) =>
    case Done(_) =>
    case ReleaseGate(_) =>
    case _ =>
  }

  lemma CloseKeepsReports(b: State, s: Step, c: CallId)
    requires CallsFit(b) && CloseEnabled(b, s) && ReportFits(b, c)
    ensures ReportFits(TakeClose(b, s), c)
  {
    match s
    case Activate(_, _) =>
    case StartClose(_) =>
    case StartOne(_) =>
    case Remove(_) =>
    case _ =>
  }

  lemma StepKeepsReports(b: State, s: Step, c: CallId)
    requires Inv(b) && Enabled(b, s) && ReportFits(b, c)
    ensures ReportFits(Take(b, s), c)
  {
    if CallEnabled(b, s) {
      CallKeepsReports(b, s, c);
    } else {
      CloseKeepsReports(b, s, c);
    }
  }

  lemma {:induction false} ReportedIsMarked(bs: seq<State>, steps: seq<Step>, i: nat, c: CallId)
    requires Run(bs, steps) && i < |bs|
    ensures ReportFits(bs[i], c)
  {
    if i > 0 {
      RunKeepsInv(bs, steps, i - 1);
      ReportedIsMarked(bs, steps, i - 1, c);
      StepKeepsReports(bs[i - 1], steps[i - 1], c);
    }
  }
}
