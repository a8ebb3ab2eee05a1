/**
 The other direction: what the late stream takes, and its announcement in the
 end, the early stream takes too.  The only thing that could stop the early
 stream alone is a limit, and the late stream's end bounds what it needs.
 */
module TrackerFollowing {
  import opened Tracker
  import opened TrackerInvariant
  import opened TrackerViews
  import opened TrackerTheorems
  import opened TrackerPairing

  // ---------------------------------------------------------------------------
  // What the late stream leaves alone

  /** From `t` to `v` the unannounced message only gathers text. */
  predicate Gathers(t: State, v: State, m: string) {
    && View(v.texts, m) == View(t.texts, m) && Waiting(t.queue, m) <= Waiting(v.queue, m) && m !in v.names.roles
  }

  lemma OfferGathers(t: State, m: string, k: string, p: Pending)
    requires ValidId(m) && m !in t.names.roles && m !in t.names.current && PendingFits(k, p)
    ensures Gathers(t, Offer(t, k, p).t, m)
  {
    if k in t.names.current {
      DeliverElsewhere(t.texts, k, m, p);
    }
  }

  lemma AdmitGathers(t: State, m: string, info: Info)
    requires ValidId(m) && m !in t.names.roles && info.id != m && ValidId(info.id)
    requires forall p | p in Waiting(t.queue, info.id) :: PendingFits(info.id, p)
    ensures Gathers(t, Admit(t, info).t, m)
  {
    FlushElsewhere(t.texts, info.id, m, Waiting(t.queue, info.id));
    assert Waiting(ClearPending(t.queue, info.id), m) == Waiting(t.queue, m);
  }

  lemma AnnounceGathers(t: State, m: string, info: Info)
    requires ValidId(m) && m !in t.names.roles && info.id != m && QueueBelongs(t.queue, t.names)
    ensures Gathers(t, Announce(t, info).t, m)
  {
    if !Refused(t.names, info) && info.role.Some? {
      assert View(Registered(t, info).texts, m) == View(t.texts, m);
      AdmitGathers(Registered(t, info), m, info);
    }
  }

  lemma ForwardGathers(t: State, m: string, name: string)
    requires m !in t.names.roles
    ensures Gathers(t, Forward(t, name), m)
  {
    SentAppends(t.texts.sent, ProviderState(name), m);
  }

  lemma IdleGathers(t: State, m: string)
    requires m !in t.names.roles
    ensures Gathers(t, ObserveIdle(t).t, m)
  {
  }

  lemma SignalGathers(t: State, m: string, body: Body)
    requires m !in t.names.roles
    ensures Gathers(t, Signal(t, body).t, m)
  {
    match body
    case Status(state) =>
      if state.Some? {
        ForwardGathers(t, m, state.value);
        IdleGathers(Forward(t, state.value), m);
      }
    case Idle => IdleGathers(t, m);
    case Other(tool, message) =>
      assert View(Signal(t, body).t.texts, m) == View(t.texts, m);
    case _ =>
  }

  lemma DispatchGathers(t: State, m: string, body: Body)
    requires Inv(t) && ValidId(m) && m !in t.names.roles && !About(body, m)
    ensures Gathers(t, Dispatch(t, body).t, m)
  {
    match body
    case MessageUpdated(info) => if info.Some? { AnnounceGathers(t, m, info.value); }
    case PartDelta(_, _, _, _) | PartUpdated(_) | TextDelta(_, _, _) =>
      TextOfFits(body);
      if TextOf(body).Carried? {
        OfferGathers(t, m, TextOf(body).message, TextOf(body).p);
      }
    case _ => SignalGathers(t, m, body);
  }

  lemma ConsumeGathers(t: State, m: string, id: string, i: Input)
    requires Inv(t) && t.armed && ValidId(m) && m !in t.names.roles && id !in t.seen && Common(i, m, id)
    ensures Gathers(t, Consume(t, i.dispatched, i.r).t, m) && id !in Consume(t, i.dispatched, i.r).t.seen
  {
    ConsumeIsDispatch(t, i);
    if Heard(t, i) && |t.seen| < MAX_EVENTS {
      DispatchGathers(Noted(t, i.r), m, i.r.body);
      DispatchKeepsSeen(Noted(t, i.r), i.r.body);
    }
  }

  lemma AdmitKeepsNames(t: State, info: Info)
    ensures Admit(t, info).t.names == t.names
  {
  }

  lemma AnnounceStaysUnknown(t: State, m: string, info: Info)
    requires m !in t.names.roles && info.id != m
    ensures m !in Announce(t, info).t.names.roles
  {
    if info.role.Some? {
      AdmitKeepsNames(Registered(t, info), info);
    }
  }

  lemma SilentKeepsNames(t: State, body: Body)
    requires !body.MessageUpdated?
    ensures Dispatch(t, body).t.names == t.names
  {
  }

  lemma ConsumeStaysUnknown(t: State, m: string, id: string, i: Input)
    requires m !in t.names.roles && id !in t.seen && Common(i, m, id)
    ensures var v := Consume(t, i.dispatched, i.r).t; m !in v.names.roles && id !in v.seen
  {
    if i.r.Record? {
      var t1, body := Noted(t.(armed := t.armed || i.dispatched), i.r), i.r.body;
      DispatchKeepsSeen(t1, body);
      if !body.MessageUpdated? {
        SilentKeepsNames(t1, body);
      } else if body.info.Some? {
        AnnounceStaysUnknown(t1, m, body.info.value);
      }
    }
  }

  /** The common stream does not announce the message. */
  lemma {:induction false} StaysUnknown(t: State, m: string, id: string, events: seq<Input>)
    requires m !in t.names.roles && id !in t.seen && forall i | i in events :: Common(i, m, id)
    ensures m !in ConsumeAll(t, events).t.names.roles && id !in ConsumeAll(t, events).t.seen
    decreases |events|
  {
    if events != [] {
      var i := events[0];
      ConsumeStaysUnknown(t, m, id, i);
      if Consume(t, i.dispatched, i.r).reply.Next? {
        StaysUnknown(Consume(t, i.dispatched, i.r).t, m, id, events[1..]);
      }
    }
  }

  // ---------------------------------------------------------------------------
  // Room for the early stream

  /** What waits for the message can be flushed, and all parts lie within `bound`; one more message and event fit. */
  ghost predicate Spare(t: State, m: string, bound: set<string>) {
    && |bound| <= MAX_PARTS && t.texts.parts.Keys <= bound && |t.names.roles| < MAX_MESSAGES && |t.seen| < MAX_EVENTS
    && Flush(View(t.texts, m), m, Waiting(t.queue, m)).ok
    && Flush(View(t.texts, m), m, Waiting(t.queue, m)).x.parts.Keys <= bound
  }

  lemma SpareBefore(t: State, v: State, m: string, bound: set<string>)
    requires Spare(v, m, bound) && Gathers(t, v, m) && Grows(t, v)
    ensures Spare(t, m, bound)
  {
    FlushPrefix(View(t.texts, m), m, Waiting(t.queue, m), Waiting(v.queue, m));
    SubsetSize(t.names.roles.Keys, v.names.roles.Keys);
    assert |t.names.roles.Keys| == |t.names.roles| && |v.names.roles.Keys| == |v.names.roles|;
    SubsetSize(t.seen, v.seen);
  }

  lemma {:induction false} SpareAlong(t: State, m: string, id: string, events: seq<Input>)
    requires Inv(t) && t.armed && ValidId(m) && m !in t.names.roles && id !in t.seen && (forall i | i in events :: Common(i, m, id))
    requires ConsumeAll(t, events).reply.Next?
    ensures forall bound :: Spare(ConsumeAll(t, events).t, m, bound) ==> Spare(t, m, bound)
    decreases |events|
  {
    if events != [] {
      var i := events[0];
      var d := Consume(t, i.dispatched, i.r);
      ConsumeGathers(t, m, id, i);
      ConsumeKeepsInv(t, i.dispatched, i.r);
      ConsumeGrows(t, i.dispatched, i.r);
      SpareAlong(d.t, m, id, events[1..]);
      forall bound | Spare(d.t, m, bound) ensures Spare(t, m, bound) {
        SpareBefore(t, d.t, m, bound);
      }
    }
  }

  lemma EarlyKeysFit(t: State, u: State, m: string, final: bool, bound: set<string>)
    requires Paired(t, u, m, final) && Spare(t, m, bound)
    ensures u.texts.parts.Keys <= bound
  {
  }

  // ---------------------------------------------------------------------------
  // One event

  lemma LateOfferFollows(t: State, u: State, m: string, final: bool, p: Pending, bound: set<string>)
    requires Paired(t, u, m, final) && PendingFits(m, p) && u.texts.parts.Keys <= bound
    requires Spare(t.(queue := Enqueue(t.queue, m, p)), m, bound)
    ensures Offer(u, m, p).reply.Next?
  {
    FlushAppends(View(t.texts, m), m, Waiting(t.queue, m), p);
    DeliverFromView(u.texts, m, p, bound);
  }

  lemma SentOfferFollows(t: State, u: State, m: string, final: bool, k: string, p: Pending, bound: set<string>)
    requires Paired(t, u, m, final) && k != m && k in t.names.current && PendingFits(k, p) && u.texts.parts.Keys <= bound
    requires Offer(t, k, p).reply.Next? && Spare(Offer(t, k, p).t, m, bound)
    ensures Offer(u, k, p).reply.Next?
  {
    assert Keyed(Deliver(t.texts, k, p).x.parts, k).Keys <= Deliver(t.texts, k, p).x.parts.Keys;
    SameDelivery(t.texts, u.texts, k, p, bound);
  }

  lemma QueueFollows(q: Queue, r: Queue, m: string, p: Pending)
    requires QueueFits(q) && QueueFits(r) && r.pending == q.pending - {m} && Fits(q, p)
    ensures Fits(r, p)
  {
    TotalsWithout(q, m);
  }

  lemma OfferFollows(t: State, u: State, m: string, final: bool, k: string, p: Pending, bound: set<string>)
    requires Paired(t, u, m, final) && Inv(t) && Inv(u) && PendingFits(k, p) && u.texts.parts.Keys <= bound
    requires Offer(t, k, p).reply.Next? && Spare(Offer(t, k, p).t, m, bound)
    ensures Offer(u, k, p).reply.Next?
  {
    if k == m {
      LateOfferFollows(t, u, m, final, p, bound);
    } else if k in t.names.current {
      SentOfferFollows(t, u, m, final, k, p, bound);
    } else if k !in t.names.roles {
      assert Fits(u.queue, p) by { QueueFollows(t.queue, u.queue, m, p); }
    }
  }

  lemma TextEventFollows(t: State, u: State, m: string, body: Body, bound: set<string>)
    requires forall k, p | PendingFits(k, p) && Offer(t, k, p).reply.Next? && Spare(Offer(t, k, p).t, m, bound) ::
               Offer(u, k, p).reply.Next?
    requires !TextEvent(t, body).reply.Fail? && Spare(TextEvent(t, body).t, m, bound)
    ensures !TextEvent(u, body).reply.Fail?
  {
    TextOfFits(body);
  }

  lemma RefusedFollows(n: Names, o: Names, m: string, info: Info)
    requires NamesMatch(n, o, m) && info.id != m && info.role.Some? && !Refused(n, info) && |Register(n, info).roles| < MAX_MESSAGES
    ensures !Refused(o, info)
  {
    if info.id !in n.roles {
      assert |Register(n, info).roles| == |n.roles| + 1;
    }
  }

  lemma AdmitFollows(t: State, u: State, m: string, final: bool, info: Info, bound: set<string>)
    requires Paired(t, u, m, final) && info.id != m && ValidId(info.id) && u.texts.parts.Keys <= bound
    requires forall p | p in Waiting(t.queue, info.id) :: PendingFits(info.id, p)
    requires !Admit(t, info).reply.Fail? && Admit(t, info).t.texts.parts.Keys <= bound && |bound| <= MAX_PARTS
    ensures !Admit(u, info).reply.Fail?
  {
    if info.id in t.names.current {
      var ps := Waiting(t.queue, info.id);
      assert Waiting(u.queue, info.id) == ps;
      assert Keyed(Flush(t.texts, info.id, ps).x.parts, info.id).Keys <= Flush(t.texts, info.id, ps).x.parts.Keys;
      SameFlush(t.texts, u.texts, info.id, ps, bound);
    }
  }

  lemma AnnounceFollows(t: State, u: State, m: string, final: bool, info: Info, bound: set<string>)
    requires Paired(t, u, m, final) && Inv(t) && info.id != m && u.texts.parts.Keys <= bound
    requires !Announce(t, info).reply.Fail? && Spare(Announce(t, info).t, m, bound)
    ensures !Announce(u, info).reply.Fail?
  {
    if info.role.Some? {
      AdmitKeepsNames(Registered(t, info), info);
      RefusedFollows(t.names, u.names, m, info);
      RegisteredMatches(t, u, m, final, info);
      AdmitFollows(Registered(t, info), Registered(u, info), m, final, info, bound);
    }
  }

  lemma SignalFollows(t: State, u: State, body: Body)
    requires Timely(t, body) && !Signal(t, body).reply.Fail?
    ensures !Signal(u, body).reply.Fail?
  {
  }

  lemma DispatchFollows(t: State, u: State, m: string, final: bool, body: Body, bound: set<string>)
    requires Paired(t, u, m, final) && Inv(t) && Inv(u) && !About(body, m) && Timely(t, body) && u.texts.parts.Keys <= bound
    requires !Dispatch(t, body).reply.Fail? && Spare(Dispatch(t, body).t, m, bound)
    ensures !Dispatch(u, body).reply.Fail?
  {
    if body.MessageUpdated? {
      if body.info.Some? {
        AnnounceFollows(t, u, m, final, body.info.value, bound);
      }
    } else if Textual(body) {
      assert Dispatch(t, body) == TextEvent(t, body);
      forall k, p | PendingFits(k, p) && Offer(t, k, p).reply.Next? && Spare(Offer(t, k, p).t, m, bound)
        ensures Offer(u, k, p).reply.Next?
      {
        OfferFollows(t, u, m, final, k, p, bound);
      }
      TextEventFollows(t, u, m, body, bound);
    } else {
      SignalFollows(t, u, body);
    }
  }

  /** One more event fits into what the early stream has seen, if it does so in the end of the late one. */
  lemma SeenFollows(t: State, u: State, id: string, i: Input)
    requires SeenMatch(t, u, id) && Heard(t, i) && |Noted(t, i.r).seen| < MAX_EVENTS
    ensures |u.seen| < MAX_EVENTS
  {
    assert |Noted(t, i.r).seen| == |t.seen| + 1;
  }

  lemma ConsumeFollows(t: State, u: State, m: string, final: bool, id: string, i: Input, bound: set<string>)
    requires Paired(t, u, m, final) && Inv(t) && Inv(u) && SeenMatch(t, u, id) && Common(i, m, id) && Calm(t, i)
    requires !Consume(t, i.dispatched, i.r).reply.Fail? && Spare(t, m, bound) && Spare(Consume(t, i.dispatched, i.r).t, m, bound)
    ensures !Consume(u, i.dispatched, i.r).reply.Fail?
  {
    ConsumeIsDispatch(t, i);
    ConsumeIsDispatch(u, i);
    HeardMatches(t, u, id, i);
    if Heard(t, i) {
      DispatchKeepsSeen(Noted(t, i.r), i.r.body);
      SeenFollows(t, u, id, i);
      NotedMatches(t, u, m, final, id, i);
      EarlyKeysFit(t, u, m, final, bound);
      DispatchFollows(Noted(t, i.r), Noted(u, i.r), m, final, i.r.body, bound);
    }
  }

  // ---------------------------------------------------------------------------
  // Streams

  lemma {:induction false} ConsumeAllFollows(t: State, u: State, m: string, final: bool, id: string, events: seq<Input>, bound: set<string>)
    requires Paired(t, u, m, final) && Inv(t) && Inv(u) && ValidId(m) && SeenMatch(t, u, id)
    requires (forall i | i in events :: Common(i, m, id)) && CalmAll(t, final, events)
    requires ConsumeAll(t, events).reply.Next? && Spare(ConsumeAll(t, events).t, m, bound)
    ensures ConsumeAll(u, events).reply.Next?
    decreases |events|
  {
    if events != [] {
      var i := events[0];
      var t1 := Consume(t, i.dispatched, i.r).t;
      SpareAlong(t, m, id, events);
      ConsumeGathers(t, m, id, i);
      ConsumeKeepsInv(t, i.dispatched, i.r);
      ConsumeGrows(t, i.dispatched, i.r);
      SpareAlong(t1, m, id, events[1..]);
      ConsumeFollows(t, u, m, final, id, i, bound);
      CalmBegins(t1, final, events[1..]);
      PairGoesOn(t, u, m, final, id, i);
      ConsumeAllFollows(t1, Consume(u, i.dispatched, i.r).t, m, final, id, events[1..], bound);
    }
  }
}
