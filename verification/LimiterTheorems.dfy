/** The capped limiter against an unbounded one, and the rate it enforces. */
module LimiterTheorems {
  import opened Base
  import opened Limiter

  // ---------------------------------------------------------------------------
  // Every run: the cap, and who is evicted

  function Most(maximum: int): int {
    if maximum > 1 then maximum else 1
  }

  predicate WindowFits(l: Limits, w: Window) {
    w.order <= l.next && l.latest.Some? && w.lastObserved <= l.latest.value && 1 <= w.count <= Most(l.maximum)
  }

  /** Orders are unique, and later observations are not earlier in time. */
  predicate Ordered(entries: map<Source, Window>) {
    forall s <- entries, r <- entries | s != r ::
      && entries[s].order != entries[r].order
      && (entries[s].order < entries[r].order ==> entries[s].lastObserved <= entries[r].lastObserved)
  }

  predicate Fits(l: Limits) {
    |l.entries| <= MAX_ENTRIES && Ordered(l.entries) && forall s <- l.entries :: WindowFits(l, l.entries[s])
  }

  /** Eviction takes the entry with the least observation order. */
  lemma VictimIsLeastRecent(l: Limits, s: Source)
    requires Fits(l) && s in l.entries && s != Victim(l.entries)
    ensures l.entries[Victim(l.entries)].order < l.entries[s].order
  {
  }

  predicate Within(entries: map<Source, Window>, big: map<Source, Window>) {
    forall s <- entries :: s in big && entries[s] == big[s]
  }

  lemma SmallerFits(l: Limits, entries: map<Source, Window>)
    requires Fits(l) && Within(entries, l.entries)
    ensures Fits(l.(entries := entries))
  {
    forall s | s in entries.Keys ensures s in l.entries.Keys {
      assert s in entries;
    }
    SubsetSize(entries.Keys, l.entries.Keys);
    assert |entries.Keys| == |entries| && |l.entries.Keys| == |l.entries|;
  }

  lemma SubsetSize(a: set<Source>, b: set<Source>)
    requires a <= b
    ensures |a| <= |b|
  {
    assert b == a + (b - a);
  }

  lemma MakeRoomFits(l: Limits, source: Source, now: Time)
    requires Fits(l)
    ensures var room := MakeRoom(l, source, now);
            && room == l.(entries := room.entries) && Within(room.entries, l.entries) && Fits(room)
            && |room.entries| < MAX_ENTRIES
  {
    var kept := Reclaim(l, now);
    SmallerFits(l, kept.entries);
    if |kept.entries| >= MAX_ENTRIES {
      var v := Victim(kept.entries);
      SmallerFits(l, kept.entries - {v});
      assert (kept.entries - {v}).Keys == kept.entries.Keys - {v};
      assert |kept.entries.Keys| == |kept.entries| && |(kept.entries - {v}).Keys| == |kept.entries - {v}|;
    }
  }

  /** A window observed now is the latest of all. */
  lemma PutFits(l: Limits, source: Source, now: Time, w: Window)
    requires Fits(l) && (source in l.entries || |l.entries| < MAX_ENTRIES)
    requires w.lastObserved == ObservedAt(l, now) && w.order == l.next + 1 && 1 <= w.count <= Most(l.maximum)
    ensures Fits(Observe(l, now).(entries := l.entries[source := w]))
  {
    var m := Observe(l, now).(entries := l.entries[source := w]);
    forall s | s in m.entries ensures WindowFits(m, m.entries[s]) {
      assert s != source ==> WindowFits(l, l.entries[s]);
    }
    forall s, r | s in m.entries && r in m.entries && s != r
      ensures m.entries[s].order != m.entries[r].order
      ensures m.entries[s].order < m.entries[r].order ==> m.entries[s].lastObserved <= m.entries[r].lastObserved
    {
      assert s != source ==> WindowFits(l, l.entries[s]);
      assert r != source ==> WindowFits(l, l.entries[r]);
    }
  }

  lemma StepKeepsFits(l: Limits, op: Op)
    requires Fits(l)
    ensures Fits(Step(l, op))
  {
    match op
    case Allow(source, now) =>
      if source in l.entries {
        assert WindowFits(l, l.entries[source]);
        PutFits(l, source, now, Judge(l, Renew(l, l.entries[source], now), now).0);
      } else {
        MakeRoomFits(l, source, now);
        PutFits(MakeRoom(l, source, now), source, now, Window(now, ObservedAt(l, now), l.next + 1, 1));
      }
    case Succeeded(source) => SmallerFits(l, l.entries - {source});
  }

  ghost function After(l: Limits, ops: seq<Op>): Limits
    decreases |ops|
  {
    if ops == [] then l else After(Step(l, ops[0]), ops[1..])
  }

  lemma {:induction false} StaysFit(l: Limits, ops: seq<Op>)
    requires Fits(l)
    ensures Fits(After(l, ops))
    decreases |ops|
  {
    if ops != [] {
      StepKeepsFits(l, ops[0]);
      StaysFit(Step(l, ops[0]), ops[1..]);
    }
  }

  /** However it is used, the limiter holds at most the cap, and evicts the entry with the least observation order. */
  lemma CapHolds(maximum: int, duration: int, ops: seq<Op>, now: Time, s: Source)
    ensures var l := After(New(maximum, duration), ops);
            && |l.entries| <= MAX_ENTRIES
            && var kept := Reclaim(l, now).entries;
            s in kept && s != Victim(kept) ==> kept[Victim(kept)].order < kept[s].order
  {
    var l := After(New(maximum, duration), ops);
    StaysFit(New(maximum, duration), ops);
    SmallerFits(l, Reclaim(l, now).entries);
    var kept := Reclaim(l, now);
    if s in kept.entries && s != Victim(kept.entries) {
      VictimIsLeastRecent(kept, s);
    }
  }

  // ---------------------------------------------------------------------------
  // The unbounded reference: one window per source, nothing is ever dropped

  datatype Win = Win(started: Time, count: int)

  function RefJudge(l: Limits, u: map<Source, Win>, source: Source, now: Time): (Win, bool) {
    if source !in u || Expired(l, u[source].started, now) then (Win(now, 1), true)
    else if u[source].count >= l.maximum then (u[source], false)
    else (Win(u[source].started, u[source].count + 1), true)
  }

  function RefStep(l: Limits, u: map<Source, Win>, op: Op): map<Source, Win> {
    match op
    case Allow(source, now) => u[source := RefJudge(l, u, source, now).0]
    case Succeeded(source) => u - {source}
  }

  /** The source's window is the reference's, unless the reference's has expired by time `t`. */
  predicate Matches(l: Limits, u: map<Source, Win>, s: Source, t: Time) {
    if s in l.entries then s in u && u[s] == Win(l.entries[s].started, l.entries[s].count)
    else s in u ==> Expired(l, u[s].started, t)
  }

  /** The operation neither evicts the source's window nor resets it. */
  ghost predicate Spares(l: Limits, op: Op, s: Source) {
    match op
    case Allow(source, now) => Full(l, source, now) ==> Victim(Reclaim(l, now).entries) != s
    case Succeeded(source) => source != s
  }

  predicate NotBefore(op: Op, t: Time) {
    op.Allow? ==> t <= op.now
  }

  function Later(op: Op, t: Time): Time {
    if op.Allow? then op.now else t
  }

  lemma AnswersMatch(l: Limits, u: map<Source, Win>, s: Source, now: Time, t: Time)
    requires Matches(l, u, s, t) && t <= now
    ensures Answer(l, s, now) == RefJudge(l, u, s, now).1
  {
  }

  lemma StepMatches(l: Limits, u: map<Source, Win>, op: Op, s: Source, t: Time)
    requires Matches(l, u, s, t) && NotBefore(op, t)
    requires Spares(l, op, s) || op == Succeeded(s)
    ensures Matches(Step(l, op), RefStep(l, u, op), s, Later(op, t))
  {
  }

  // ---------------------------------------------------------------------------
  // The same answers until the first eviction

  ghost predicate NeverEvicts(l: Limits, ops: seq<Op>)
    decreases |ops|
  {
    ops == [] || (!(ops[0].Allow? && Full(l, ops[0].source, ops[0].now)) && NeverEvicts(Step(l, ops[0]), ops[1..]))
  }

  /** The clock does not run backwards from `t` on. */
  predicate Forward(ops: seq<Op>, t: Time)
    decreases |ops|
  {
    ops == [] || (NotBefore(ops[0], t) && Forward(ops[1..], Later(ops[0], t)))
  }

  ghost function Answers(l: Limits, ops: seq<Op>): seq<bool>
    decreases |ops|
  {
    if ops == [] then []
    else [ops[0].Allow? ==> Answer(l, ops[0].source, ops[0].now)] + Answers(Step(l, ops[0]), ops[1..])
  }

  function RefAnswers(l: Limits, u: map<Source, Win>, ops: seq<Op>): seq<bool>
    decreases |ops|
  {
    if ops == [] then []
    else [ops[0].Allow? ==> RefJudge(l, u, ops[0].source, ops[0].now).1] + RefAnswers(l, RefStep(l, u, ops[0]), ops[1..])
  }

  lemma StepKeepsSettings(l: Limits, op: Op)
    ensures Step(l, op).maximum == l.maximum && Step(l, op).duration == l.duration
  {
  }

  lemma {:induction false} SettingsOnly(l: Limits, m: Limits, u: map<Source, Win>, ops: seq<Op>)
    requires m.maximum == l.maximum && m.duration == l.duration
    ensures RefAnswers(m, u, ops) == RefAnswers(l, u, ops)
    decreases |ops|
  {
    if ops != [] {
      SettingsOnly(l, m, RefStep(l, u, ops[0]), ops[1..]);
    }
  }

  lemma {:induction false} RunsAgree(l: Limits, u: map<Source, Win>, ops: seq<Op>, t: Time)
    requires (forall s :: Matches(l, u, s, t)) && Forward(ops, t) && NeverEvicts(l, ops)
    ensures Answers(l, ops) == RefAnswers(l, u, ops)
    decreases |ops|
  {
    if ops != [] {
      var op := ops[0];
      if op.Allow? {
        AnswersMatch(l, u, op.source, op.now, t);
      }
      forall s ensures Matches(Step(l, op), RefStep(l, u, op), s, Later(op, t)) {
        StepMatches(l, u, op, s, t);
      }
      StepKeepsSettings(l, op);
      RunsAgree(Step(l, op), RefStep(l, u, op), ops[1..], Later(op, t));
      SettingsOnly(l, Step(l, op), RefStep(l, u, op), ops[1..]);
    }
  }

  /** With a clock that does not run backwards, the limiter answers like the unbounded one until it first evicts. */
  lemma LikeUnbounded(maximum: int, duration: int, ops: seq<Op>, t: Time)
    requires Forward(ops, t) && NeverEvicts(New(maximum, duration), ops)
    ensures Answers(New(maximum, duration), ops) == RefAnswers(New(maximum, duration), map[], ops)
  {
    RunsAgree(New(maximum, duration), map[], ops, t);
  }

  // ---------------------------------------------------------------------------
  // The rate

  /** Nothing evicts or resets the source's window during the operations. */
  ghost predicate Undisturbed(l: Limits, ops: seq<Op>, s: Source)
    decreases |ops|
  {
    ops == [] || (Spares(l, ops[0], s) && Undisturbed(Step(l, ops[0]), ops[1..], s))
  }

  predicate In(now: Time, a: Time, duration: int) {
    a <= now <= a + duration
  }

  /** How often the source is admitted in the interval of one window length that starts at `a`. */
  ghost function Admitted(l: Limits, ops: seq<Op>, s: Source, a: Time): nat
    decreases |ops|
  {
    if ops == [] then 0
    else
      var op := ops[0];
      (if op.Allow? && op.source == s && In(op.now, a, l.duration) && Answer(l, s, op.now) then 1 else 0)
      + Admitted(Step(l, op), ops[1..], s, a)
  }

  /** Admissions counted so far, against the reference window of the source: at most two windows meet the interval. */
  predicate Counted(l: Limits, u: map<Source, Win>, s: Source, a: Time, t: Time, n: int) {
    && (t < a ==> n == 0)
    && (s !in u ==> n == 0)
    && (s in u ==>
          var w, most := u[s], Most(l.maximum);
          && w.started <= t && 1 <= w.count <= most
          && (w.started + l.duration <= a ==> n == 0)
          && (w.started <= a ==> n <= w.count)
          && (a < w.started <= a + l.duration ==> n <= most + w.count)
          && (a + l.duration < w.started ==> n <= 2 * most))
  }

  lemma CountedStep(l: Limits, u: map<Source, Win>, op: Op, s: Source, a: Time, t: Time, n: int)
    requires Counted(l, u, s, a, t, n) && NotBefore(op, t) && op != Succeeded(s) && l.duration > 0
    ensures var more := if op.Allow? && op.source == s && In(op.now, a, l.duration) && RefJudge(l, u, s, op.now).1 then 1 else 0;
            Counted(l, RefStep(l, u, op), s, a, Later(op, t), n + more)
  {
  }

  lemma {:induction false} RateOf(l: Limits, u: map<Source, Win>, ops: seq<Op>, s: Source, a: Time, t: Time, n: int)
    requires Matches(l, u, s, t) && Counted(l, u, s, a, t, n) && l.duration > 0
    requires Forward(ops, t) && Undisturbed(l, ops, s)
    ensures n + Admitted(l, ops, s, a) <= 2 * Most(l.maximum)
    decreases |ops|
  {
    if ops != [] {
      var op := ops[0];
      if op.Allow? {
        AnswersMatchFor(l, u, op, s, t);
      }
      CountedStep(l, u, op, s, a, t, n);
      StepMatches(l, u, op, s, t);
      StepKeepsSettings(l, op);
      var more := if op.Allow? && op.source == s && In(op.now, a, l.duration) && Answer(l, s, op.now) then 1 else 0;
      RateOf(Step(l, op), RefStep(l, u, op), ops[1..], s, a, Later(op, t), n + more);
    }
  }

  lemma AnswersMatchFor(l: Limits, u: map<Source, Win>, op: Op, s: Source, t: Time)
    requires Matches(l, u, s, t) && op.Allow? && NotBefore(op, t)
    ensures op.source == s ==> Answer(l, s, op.now) == RefJudge(l, u, s, op.now).1
  {
    AnswersMatch(l, u, s, op.now, t);
  }

  predicate Started(l: Limits, t: Time) {
    forall s <- l.entries :: l.entries[s].started <= t
  }

  function LastTime(ops: seq<Op>, t: Time): Time
    decreases |ops|
  {
    if ops == [] then t else LastTime(ops[1..], Later(ops[0], t))
  }

  lemma StepKeepsStarted(l: Limits, op: Op, t: Time)
    requires Started(l, t) && NotBefore(op, t) && Fits(l)
    ensures Started(Step(l, op), Later(op, t))
  {
    if op.Allow? {
      MakeRoomFits(l, op.source, op.now);
    }
  }

  lemma {:induction false} ForwardRun(l: Limits, before: seq<Op>, ops: seq<Op>, t: Time)
    requires Started(l, t) && Fits(l) && Forward(before + ops, t)
    ensures Started(After(l, before), LastTime(before, t)) && Forward(ops, LastTime(before, t)) && Fits(After(l, before))
    ensures After(l, before).duration == l.duration && After(l, before).maximum == l.maximum
    decreases |before|
  {
    if before == [] {
      assert before + ops == ops;
    } else {
      assert (before + ops)[1..] == before[1..] + ops;
      StepKeepsStarted(l, before[0], t);
      StepKeepsFits(l, before[0]);
      StepKeepsSettings(l, before[0]);
      ForwardRun(Step(l, before[0]), before[1..], ops, Later(before[0], t));
    }
  }

  /**
   Over any stretch of a run in which a source is neither evicted nor reset, it is
   admitted at most twice the maximum in any interval of one window length; a
   maximum below one counts as one, since the first request of a window passes.
   */
  lemma RateIsBounded(maximum: int, duration: int, before: seq<Op>, ops: seq<Op>, s: Source, a: Time, t: Time)
    requires duration > 0 && Forward(before + ops, t) && Undisturbed(After(New(maximum, duration), before), ops, s)
    ensures Admitted(After(New(maximum, duration), before), ops, s, a) <= 2 * Most(maximum)
  {
    ForwardRun(New(maximum, duration), before, ops, t);
    var l := After(New(maximum, duration), before);
    var u := if s in l.entries then map[s := Win(l.entries[s].started, l.entries[s].count)] else map[];
    assert s in l.entries ==> WindowFits(l, l.entries[s]);
    RateOf(l, u, ops, s, a, LastTime(before, t), 0);
  }

  /** Twice the maximum itself is exceeded exactly when the maximum is below one. */
  lemma LowMaximumStillAdmits(maximum: int, duration: int, s: Source, now: Time)
    requires duration > 0
    ensures Admitted(New(maximum, duration), [Allow(s, now)], s, now) > 2 * maximum <==> maximum < 1
  {
    var l := New(maximum, duration);
    assert [Allow(s, now)][1..] == [];
    assert Admitted(Step(l, Allow(s, now)), [], s, now) == 0;
  }
}
