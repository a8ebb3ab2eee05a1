/**
 When buffering cannot be observed: announcing a message after some of its text
 has arrived instead of before it changes neither the outcome of the stream nor
 the deltas of any message, provided the queue does not overflow, no event in
 between is ignored for want of activity, and the turn does not end in between.
 Each proviso is needed.
 */
module TrackerTransparency {
  import opened Base
  import opened Tracker
  import opened TrackerInvariant
  import opened TrackerViews
  import opened TrackerTheorems
  import opened TrackerPairing
  import opened TrackerFollowing
  import opened TrackerTwins

  // ---------------------------------------------------------------------------
  // The announcement

  /** The announcement can go through: well-formed, no error, a readable finish. */
  predicate Proper(info: Info) {
    ValidId(info.id) && ValidId(info.parent) && info.error.None? && !info.finish.BadFinish?
  }

  function Flushed(t: State, m: string): Said {
    Flush(t.texts.(activity := true), m, Waiting(t.queue, m))
  }

  /** The state after the announcement of a new answer. */
  function Answered(t: State, info: Info): State
    requires info.role.Some?
  {
    t.(names := Register(t.names, info), final := t.final || info.finish.FinalFinish?, texts := Flushed(t, info.id).x,
       queue := ClearPending(t.queue, info.id))
  }

  lemma AnnounceAnswers(t: State, info: Info)
    requires Answers(t.names, info) && info.id !in t.names.roles
    ensures !Announce(t, info).reply.Fail? <==>
            Proper(info) && |t.names.roles| < MAX_MESSAGES && Flushed(t, info.id).ok
    ensures !Announce(t, info).reply.Fail? ==> Announce(t, info) == Settled(Answered(t, info))
  {
    assert t.texts.activity || Answers(t.names, info);
  }

  /** A new answer to the prompt is announced. */
  predicate Announces(t: State, i: Input, m: string) {
    && Heard(t, i) && About(i.r.body, m)
    && Answers(t.names, i.r.body.info.value) && m !in t.names.roles
  }

  predicate IsFinal(i: Input)
    requires i.r.Record? && i.r.body.MessageUpdated? && i.r.body.info.Some?
  {
    i.r.body.info.value.finish.FinalFinish?
  }

  /** What the announcement does, and exactly when it fails. */
  lemma ConsumeAnswers(t: State, ann: Input, m: string)
    requires t.armed && Announces(t, ann, m)
    ensures var d, info := Consume(t, ann.dispatched, ann.r), ann.r.body.info.value;
            && (!d.reply.Fail? <==>
                Proper(info) && |t.seen| < MAX_EVENTS && |t.names.roles| < MAX_MESSAGES && Flushed(t, m).ok)
            && (!d.reply.Fail? ==> d == Settled(Noted(Answered(t, info), ann.r)))
  {
    ConsumeIsDispatch(t, ann);
    var t1, info := Noted(t, ann.r), ann.r.body.info.value;
    AnnounceAnswers(t1, info);
    assert Answered(t1, info) == Noted(Answered(t, info), ann.r);
  }

  lemma FlushedMatches(x: Texts, q: Queue, m: string)
    requires ValidId(m) && (forall p | p in Waiting(q, m) :: PendingFits(m, p)) && Flush(x.(activity := true), m, Waiting(q, m)).ok
    ensures TextsMatch(x, q, Flush(x.(activity := true), m, Waiting(q, m)).x, m)
  {
    var x1, ps := x.(activity := true), Waiting(q, m);
    assert forall n :: View(x1, n) == View(x, n);
    FlushViews(x1, m, ps);
    FlushedKeys(x1, m, ps);
    forall n | ValidId(n) && n != m ensures View(x, n) == View(Flush(x1, m, ps).x, n) {
      FlushElsewhere(x1, m, n, ps);
    }
  }

  lemma AnsweredPaired(t: State, info: Info)
    requires Inv(t) && t.armed && Answers(t.names, info) && info.id !in t.names.roles && ValidId(info.id) && Flushed(t, info.id).ok
    ensures Paired(t, Answered(t, info), info.id, info.finish.FinalFinish?)
  {
    FlushedMatches(t.texts, t.queue, info.id);
    FlushGrows(t.texts.(activity := true), info.id, Waiting(t.queue, info.id));
  }

  /** The early announcement pairs the state before it with the state after it. */
  lemma EarlyAnnouncement(t: State, ann: Input, m: string)
    requires Inv(t) && t.armed && Announces(t, ann, m) && Unfinished(t, IsFinal(ann))
    requires !Consume(t, ann.dispatched, ann.r).reply.Fail?
    ensures Proper(ann.r.body.info.value) && Consume(t, ann.dispatched, ann.r).reply.Next?
    ensures var u := Consume(t, ann.dispatched, ann.r).t; Paired(t, u, m, IsFinal(ann)) && Inv(u) && SeenMatch(t, u, ann.r.id)
  {
    ConsumeAnswers(t, ann, m);
    ConsumeKeepsInv(t, ann.dispatched, ann.r);
    AnsweredPaired(t, ann.r.body.info.value);
  }

  // ---------------------------------------------------------------------------
  // The announcement in the end

  /** Flushing the late message's queue in the end gives every message the share it has in the early stream. */
  lemma LateFlushMatches(x: Texts, q: Queue, y: Texts, m: string)
    requires TextsMatch(x, q, y, m) && ValidId(m) && (forall p | p in Waiting(q, m) :: PendingFits(m, p)) && |y.parts| <= MAX_PARTS
    requires y.activity
    ensures var s := Flush(x.(activity := true), m, Waiting(q, m)); s.ok && TextsTwin(s.x, y)
  {
    var x1, ps := x.(activity := true), Waiting(q, m);
    assert forall n :: View(x1, n) == View(x, n);
    assert Keyed(y.parts, m).Keys <= y.parts.Keys && |y.parts.Keys| == |y.parts|;
    FlushFromView(x1, m, ps, y.parts.Keys);
    FlushViews(x1, m, ps);
    FlushedKeys(x1, m, ps);
    FlushGrows(x1, m, ps);
    forall n | ValidId(n) ensures View(Flush(x1, m, ps).x, n) == View(y, n) {
      if n != m {
        FlushElsewhere(x1, m, n, ps);
      }
    }
    assert Keyed(Flush(x1, m, ps).x.parts, m) == Keyed(y.parts, m);
  }

  lemma LateNames(n: Names, o: Names, m: string, info: Info)
    requires NamesMatch(n, o, m) && info.id == m && Answers(n, info)
    ensures Register(n, info) == o && |n.roles| < |o.roles|
  {
  }

  lemma LateQueue(q: Queue, r: Queue, m: string)
    requires QueueFits(q) && QueueFits(r) && r.pending == q.pending - {m}
    ensures ClearPending(q, m) == r
  {
    TotalsWithout(q, m);
  }

  lemma AnsweredTwin(t: State, u: State, m: string, info: Info, id: string)
    requires Inv(t) && Inv(u) && Paired(t, u, m, info.finish.FinalFinish?) && info.id == m && Answers(t.names, info) && ValidId(m)
    requires u.seen == t.seen + {id}
    ensures Flushed(t, m).ok && Twin(Answered(t, info).(seen := t.seen + {id}), u)
  {
    LateNames(t.names, u.names, m, info);
    LateQueue(t.queue, u.queue, m);
    LateFlushMatches(t.texts, t.queue, u.texts, m);
  }

  /** The late announcement turns a pair into twins. */
  lemma LateAnnouncement(t: State, u: State, ann: Input, m: string)
    requires Inv(t) && Inv(u) && Announces(t, ann, m) && Proper(ann.r.body.info.value) && Unfinished(t, IsFinal(ann))
    requires Paired(t, u, m, IsFinal(ann)) && SeenMatch(t, u, ann.r.id)
    ensures Consume(t, ann.dispatched, ann.r).reply.Next? && Twin(Consume(t, ann.dispatched, ann.r).t, u)
    ensures Inv(Consume(t, ann.dispatched, ann.r).t)
  {
    LateNames(t.names, u.names, m, ann.r.body.info.value);
    AnsweredTwin(t, u, m, ann.r.body.info.value, ann.r.id);
    ConsumeAnswers(t, ann, m);
    ConsumeKeepsInv(t, ann.dispatched, ann.r);
  }

  /** A late announcement that goes through leaves room for the early one. */
  lemma LateSpare(t: State, ann: Input, m: string)
    requires Inv(t) && t.armed && Announces(t, ann, m) && !Consume(t, ann.dispatched, ann.r).reply.Fail?
    ensures Spare(t, m, Flushed(t, m).x.parts.Keys)
  {
    ConsumeAnswers(t, ann, m);
    ConsumeKeepsInv(t, ann.dispatched, ann.r);
    var x1, ps := t.texts.(activity := true), Waiting(t.queue, m);
    assert View(x1, m) == View(t.texts, m);
    assert |Flushed(t, m).x.parts.Keys| == |Flushed(t, m).x.parts|;
    FlushKeys(x1, m, ps);
    FlushViews(x1, m, ps);
  }

  lemma EarlySpare(t: State, ann: Input, m: string, bound: set<string>)
    requires Inv(t) && t.armed && Announces(t, ann, m) && Proper(ann.r.body.info.value) && Spare(t, m, bound)
    ensures !Consume(t, ann.dispatched, ann.r).reply.Fail?
  {
    var x1 := t.texts.(activity := true);
    assert View(x1, m) == View(t.texts, m);
    FlushFromView(x1, m, Waiting(t.queue, m), bound);
    ConsumeAnswers(t, ann, m);
  }

  // ---------------------------------------------------------------------------
  // Both orders

  lemma ConsumeOne(t: State, i: Input)
    ensures ConsumeAll(t, [i]) == Consume(t, i.dispatched, i.r)
  {
    assert [i][1..] == [];
  }

  lemma StillAnnounces(t: State, v: State, ann: Input, m: string)
    requires t.armed && Announces(t, ann, m) && Grows(t, v) && ann.r.id !in v.seen && m !in v.names.roles
    ensures Announces(v, ann, m)
  {
  }

  /** A calm stream does not end the turn. */
  lemma {:induction false} CalmStaysOpen(t: State, final: bool, events: seq<Input>)
    requires CalmAll(t, final, events) && !ConsumeAll(t, events).reply.Fail?
    ensures ConsumeAll(t, events).reply.Next?
    decreases |events|
  {
    if events != [] {
      var i := events[0];
      CalmBegins(Consume(t, i.dispatched, i.r).t, final, events[1..]);
      UnfinishedGoesOn(t, i, final);
      CalmStaysOpen(Consume(t, i.dispatched, i.r).t, final, events[1..]);
    }
  }

  /** What the early order takes, the late order takes. */
  lemma EarlyThenLate(t: State, ann: Input, m: string, events: seq<Input>)
    requires Inv(t) && t.armed && Announces(t, ann, m)
    requires (forall i | i in events :: Common(i, m, ann.r.id)) && CalmAll(t, IsFinal(ann), events)
    requires !ConsumeAll(t, [ann] + events).reply.Fail?
    ensures var late, early := ConsumeAll(t, events + [ann]), ConsumeAll(t, [ann] + events);
            late.reply.Next? && early.reply.Next? && Twin(late.t, early.t) && Inv(late.t) && Inv(early.t)
  {
    assert ([ann] + events)[1..] == events;
    CalmBegins(t, IsFinal(ann), events);
    EarlyAnnouncement(t, ann, m);
    var u := Consume(t, ann.dispatched, ann.r).t;
    ConsumeAllMatches(t, u, m, IsFinal(ann), ann.r.id, events);
    ConsumeAllKeepsInv(t, events);
    var v := ConsumeAll(t, events).t;
    StillAnnounces(t, v, ann, m);
    LateAnnouncement(v, ConsumeAll(u, events).t, ann, m);
    ConsumeAllJoins(t, events, [ann]);
    ConsumeOne(v, ann);
  }

  /** A late order that goes through announces the message in the end. */
  lemma LateOrder(t: State, ann: Input, m: string, events: seq<Input>)
    requires Inv(t) && t.armed && Announces(t, ann, m)
    requires (forall i | i in events :: Common(i, m, ann.r.id)) && CalmAll(t, IsFinal(ann), events)
    requires !ConsumeAll(t, events + [ann]).reply.Fail?
    ensures var v := ConsumeAll(t, events).t;
            && ConsumeAll(t, events).reply.Next? && Inv(v) && v.armed && Announces(v, ann, m)
            && !Consume(v, ann.dispatched, ann.r).reply.Fail? && Proper(ann.r.body.info.value)
  {
    var v := ConsumeAll(t, events).t;
    ConsumeAllJoins(t, events, [ann]);
    CalmStaysOpen(t, IsFinal(ann), events);
    ConsumeOne(v, ann);
    ConsumeAllKeepsInv(t, events);
    StaysUnknown(t, m, ann.r.id, events);
    StillAnnounces(t, v, ann, m);
    ConsumeAnswers(v, ann, m);
  }

  /** What the late order takes, the early order takes. */
  lemma LateThenEarly(t: State, ann: Input, m: string, events: seq<Input>)
    requires Inv(t) && t.armed && Announces(t, ann, m)
    requires (forall i | i in events :: Common(i, m, ann.r.id)) && CalmAll(t, IsFinal(ann), events)
    requires !ConsumeAll(t, events + [ann]).reply.Fail?
    ensures !ConsumeAll(t, [ann] + events).reply.Fail?
  {
    LateOrder(t, ann, m, events);
    var v := ConsumeAll(t, events).t;
    var bound := Flushed(v, m).x.parts.Keys;
    LateSpare(v, ann, m);
    SpareAlong(t, m, ann.r.id, events);
    EarlySpare(t, ann, m, bound);
    CalmBegins(t, IsFinal(ann), events);
    EarlyAnnouncement(t, ann, m);
    ConsumeAllFollows(t, Consume(t, ann.dispatched, ann.r).t, m, IsFinal(ann), ann.r.id, events, bound);
    assert ([ann] + events)[1..] == events;
  }

  lemma BothOrders(t: State, ann: Input, m: string, events: seq<Input>)
    requires Inv(t) && t.armed && Announces(t, ann, m)
    requires (forall i | i in events :: Common(i, m, ann.r.id)) && CalmAll(t, IsFinal(ann), events)
    ensures var late, early := ConsumeAll(t, events + [ann]), ConsumeAll(t, [ann] + events);
            || (late.reply.Fail? && early.reply.Fail?)
            || (late.reply.Next? && early.reply.Next? && Twin(late.t, early.t) && Inv(late.t) && Inv(early.t))
  {
    if !ConsumeAll(t, [ann] + events).reply.Fail? {
      EarlyThenLate(t, ann, m, events);
    } else if !ConsumeAll(t, events + [ann]).reply.Fail? {
      LateThenEarly(t, ann, m, events);
    }
  }

  /**
   Text that arrives before its message is announced reaches the sink as if the
   announcement had come first: for a calm stretch of events and whatever follows
   it, the two orders fail together, and otherwise give the same reply, the same
   deltas for every message, and states that differ in nothing but how the deltas
   of different messages interleave.
   */
  lemma BufferingIsTransparent(t: State, ann: Input, m: string, events: seq<Input>, suffix: seq<Input>, n: string)
    requires Inv(t) && t.armed && Announces(t, ann, m) && ValidId(n)
    requires (forall i | i in events :: Common(i, m, ann.r.id)) && CalmAll(t, IsFinal(ann), events)
    ensures var late, early := ConsumeAll(t, events + [ann] + suffix), ConsumeAll(t, [ann] + events + suffix);
            && (late.reply.Fail? <==> early.reply.Fail?)
            && (!late.reply.Fail? ==>
                && late.reply == early.reply && Twin(late.t, early.t)
                && OfMessage(late.t.texts.sent, n) == OfMessage(early.t.texts.sent, n))
  {
    BothOrders(t, ann, m, events);
    var late, early := ConsumeAll(t, events + [ann]), ConsumeAll(t, [ann] + events);
    ConsumeAllJoins(t, events + [ann], suffix);
    ConsumeAllJoins(t, [ann] + events, suffix);
    if late.reply.Next? && early.reply.Next? {
      TwinsAnswerAlike(late.t, early.t, suffix);
      if !ConsumeAll(late.t, suffix).reply.Fail? {
        assert View(ConsumeAll(late.t, suffix).t.texts, n) == View(ConsumeAll(early.t, suffix).t.texts, n);
      }
    }
  }

  // ---------------------------------------------------------------------------
  // Each proviso is needed

  lemma OverflowFails(t: State, i: Input)
    requires NamesFit(t.names) && t.armed && Heard(t, i) && !Roomy(t, i.r.body)
    ensures Consume(t, i.dispatched, i.r).reply.Fail?
  {
    ConsumeIsDispatch(t, i);
  }

  /** A stream that overflows the queue fails there, announcements and all. */
  lemma OverflowStops(t: State, before: seq<Input>, i: Input, after: seq<Input>)
    requires Inv(t) && t.armed && ConsumeAll(t, before).reply.Next?
    requires Heard(ConsumeAll(t, before).t, i) && !Roomy(ConsumeAll(t, before).t, i.r.body)
    ensures ConsumeAll(t, before + [i] + after).reply.Fail?
  {
    var v := ConsumeAll(t, before).t;
    ConsumeAllKeepsInv(t, before);
    OverflowFails(v, i);
    ConsumeOne(v, i);
    ConsumeAllJoins(t, before, [i]);
    ConsumeAllJoins(t, before + [i], after);
  }

  lemma ConsumeTwo(t: State, i: Input, j: Input)
    requires Consume(t, i.dispatched, i.r).reply.Next?
    ensures ConsumeAll(t, [i, j]) == Consume(Consume(t, i.dispatched, i.r).t, j.dispatched, j.r)
  {
    assert [i, j][1..] == [j];
    ConsumeOne(Consume(t, i.dispatched, i.r).t, j);
  }

  /** A state without activity that can take the announcement, and an event beside it. */
  predicate Fresh(t: State, ann: Input, m: string, i: Input) {
    && t.armed && Announces(t, ann, m) && !t.texts.activity && !t.idle && !Consume(t, ann.dispatched, ann.r).reply.Fail?
    && Heard(t, i) && i.r.id != ann.r.id && |t.seen| + 1 < MAX_EVENTS
  }

  /** An event that is ignored before the announcement leaves the announcement what it was. */
  lemma IgnoredThenAnnounced(t: State, ann: Input, m: string, i: Input)
    requires Fresh(t, ann, m, i) && Consume(t, i.dispatched, i.r) == Did(Noted(t, i.r), Next)
    ensures ConsumeAll(t, [i, ann]).reply.Next?
  {
    var v := Noted(t, i.r);
    ConsumeTwo(t, i, ann);
    ConsumeAnswers(t, ann, m);
    assert Announces(v, ann, m);
    assert |v.seen| == |t.seen| + 1;
    assert Flushed(v, m) == Flushed(t, m);
    ConsumeAnswers(v, ann, m);
  }

  /** The state after the announcement hears the event, with activity. */
  lemma AnnouncedThenHeard(t: State, ann: Input, m: string, i: Input)
    requires Fresh(t, ann, m, i)
    ensures var d := Consume(t, ann.dispatched, ann.r);
            && d.reply.Next? && d.t.armed && Heard(d.t, i) && |d.t.seen| < MAX_EVENTS
            && d.t.texts.activity && d.t.final == (t.final || IsFinal(ann))
            && ConsumeAll(t, [ann, i]) == Dispatch(Noted(d.t, i.r), i.r.body)
  {
    ConsumeAnswers(t, ann, m);
    FlushGrows(t.texts.(activity := true), m, Waiting(t.queue, m));
    var u := Consume(t, ann.dispatched, ann.r).t;
    assert |u.seen| <= |t.seen| + 1;
    ConsumeTwo(t, ann, i);
    ConsumeIsDispatch(u, i);
  }

  /** Idle before any activity: after a final announcement it ends the turn, before it it is ignored and the turn goes on. */
  lemma IdleBeforeActivityShows(t: State, ann: Input, m: string, i: Input)
    requires Fresh(t, ann, m, i) && IsFinal(ann) && i.r.body.Idle?
    ensures ConsumeAll(t, [ann, i]).reply.Over? && ConsumeAll(t, [i, ann]).reply.Next?
  {
    AnnouncedThenHeard(t, ann, m, i);
    assert Consume(t, i.dispatched, i.r) == Did(Noted(t, i.r), Next) by { ConsumeIsDispatch(t, i); }
    IgnoredThenAnnounced(t, ann, m, i);
  }

  /** A session error before prompt and activity: after the announcement it fails the turn, before it it is ignored. */
  lemma ErrorBeforeActivityShows(t: State, ann: Input, m: string, i: Input)
    requires Fresh(t, ann, m, i) && i.r.body.SessionError? && !t.names.promptSeen
    ensures ConsumeAll(t, [ann, i]).reply == Fail(i.r.body.code) && ConsumeAll(t, [i, ann]).reply.Next?
  {
    AnnouncedThenHeard(t, ann, m, i);
    assert Consume(t, i.dispatched, i.r) == Did(Noted(t, i.r), Next) by { ConsumeIsDispatch(t, i); }
    IgnoredThenAnnounced(t, ann, m, i);
  }

  const ANSWER := Info("m", Some(Assistant), "p", FinalFinish, None)
  const ANSWERED := Input(true, Record("e", ["s"], MessageUpdated(Some(ANSWER))))
  const IDLE := Input(true, Record("f", ["s"], Idle))

  /** Right after the dispatch of the prompt. */
  const READY := New("s", "p").(armed := true)

  lemma BothAreHeard()
    ensures Heard(READY, ANSWERED) && Heard(READY, IDLE) && ANSWERED.r.id != IDLE.r.id
  {
    assert SessionOf(["s"]) == "s";
    assert SessionsAgree(["s"]);
    assert |"e"| == 1 && |"f"| == 1;
    assert "e"[0] != "f"[0];
  }

  lemma AnswerIsProper()
    ensures Proper(ANSWER) && Answers(READY.names, ANSWER)
  {
    assert |"m"| == 1 && |"p"| == 1;
  }

  lemma NewIsFresh(t: State, ann: Input, m: string, i: Input)
    requires t.armed && Announces(t, ann, m) && Proper(ann.r.body.info.value) && Heard(t, i) && i.r.id != ann.r.id
    requires t.seen == {} && t.names.roles == map[] && t.queue.pending == map[] && !t.texts.activity && !t.idle
    ensures Fresh(t, ann, m, i)
  {
    ConsumeAnswers(t, ann, m);
  }

  lemma ConsumeArms(t: State, inputs: seq<Input>)
    requires inputs != [] && inputs[0].dispatched
    ensures ConsumeAll(t, inputs) == ConsumeAll(t.(armed := true), inputs)
  {
  }

  lemma IdleShowsFromTheStart(t: State, ann: Input, m: string, i: Input)
    requires Fresh(t.(armed := true), ann, m, i) && IsFinal(ann) && i.r.body.Idle? && ann.dispatched && i.dispatched
    ensures ConsumeAll(t, [ann, i]).reply.Over? && ConsumeAll(t, [i, ann]).reply.Next?
  {
    IdleBeforeActivityShows(t.(armed := true), ann, m, i);
    ConsumeArms(t, [ann, i]);
    ConsumeArms(t, [i, ann]);
  }

  /** From a new tracker: the two orders of an idle signal and a final answer end differently. */
  lemma IdleBeforeActivityIsReachable()
    ensures ConsumeAll(New("s", "p"), [ANSWERED, IDLE]).reply.Over? && ConsumeAll(New("s", "p"), [IDLE, ANSWERED]).reply.Next?
  {
    BothAreHeard();
    AnswerIsProper();
    NewIsFresh(READY, ANSWERED, "m", IDLE);
    IdleShowsFromTheStart(New("s", "p"), ANSWERED, "m", IDLE);
  }

  /** The provider is idle already, and the event carries the first text of the message. */
  predicate Waits(t: State, ann: Input, m: string, i: Input, delta: string) {
    && t.armed && Announces(t, ann, m) && IsFinal(ann) && !Consume(t, ann.dispatched, ann.r).reply.Fail?
    && t.idle && m !in t.names.current && Waiting(t.queue, m) == [] && m !in t.texts.first && m !in t.texts.fallback
    && Heard(t, i) && i.r.id != ann.r.id && |t.seen| + 1 < MAX_EVENTS
    && i.r.body == TextDelta(m, "", delta) && delta != "" && Fits(t.queue, PendingCompat("", delta))
  }

  lemma FinishedBeforeText(t: State, ann: Input, m: string, i: Input, delta: string)
    requires Waits(t, ann, m, i, delta)
    ensures ConsumeAll(t, [ann, i]).reply.Over? && ConsumeAll(t, [ann, i]).t.texts.sent == t.texts.sent
  {
    ConsumeAnswers(t, ann, m);
  }

  lemma FlushOne(x: Texts, m: string, p: Pending)
    ensures Flush(x, m, [p]) == Deliver(x, m, p)
  {
    assert [p][1..] == [];
  }

  lemma TextBeforeFinished(t: State, ann: Input, m: string, i: Input, delta: string)
    requires Waits(t, ann, m, i, delta)
    ensures ConsumeAll(t, [i, ann]).reply.Over?
    ensures ConsumeAll(t, [i, ann]).t.texts.sent == t.texts.sent + [Delta(m, Compatibility, "", Text, delta)]
  {
    ConsumeAnswers(t, ann, m);
    ConsumeIsDispatch(t, i);
    var p := PendingCompat("", delta);
    var v := Consume(t, i.dispatched, i.r).t;
    assert v == Noted(t, i.r).(queue := Enqueue(t.queue, m, p));
    ConsumeTwo(t, i, ann);
    assert Announces(v, ann, m) && |v.seen| == |t.seen| + 1;
    FlushOne(t.texts.(activity := true), m, p);
    assert Waiting(v.queue, m) == [p];
    ConsumeAnswers(v, ann, m);
  }

  /** Idle was seen already: a final announcement ends the turn without text that comes after it, and sends text that came before. */
  lemma FinishBeforeTextShows(t: State, ann: Input, m: string, i: Input, delta: string)
    requires Waits(t, ann, m, i, delta)
    ensures var late, early := ConsumeAll(t, [i, ann]), ConsumeAll(t, [ann, i]);
            && early.reply.Over? && OfMessage(early.t.texts.sent, m) == OfMessage(t.texts.sent, m)
            && late.reply.Over? && OfMessage(late.t.texts.sent, m) == OfMessage(t.texts.sent, m) + [Delta(m, Compatibility, "", Text, delta)]
  {
    FinishedBeforeText(t, ann, m, i, delta);
    TextBeforeFinished(t, ann, m, i, delta);
    SentAppends(t.texts.sent, Delta(m, Compatibility, "", Text, delta), m);
  }
}
