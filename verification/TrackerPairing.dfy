/**
 Two runs of the tracker side by side: one stream announces a message early, the
 other has not announced it yet and queues its text.  What the early stream
 takes, the late one takes too, and the two stay paired.
 */
module TrackerPairing {
  import opened Base
  import opened Tracker
  import opened TrackerInvariant
  import opened TrackerViews
  import opened TrackerTheorems

  /** The early stream knows one assistant more. */
  predicate NamesMatch(n: Names, o: Names, m: string) {
    && n.prompt != "" && m !in n.roles
    && o.roles == n.roles[m := Assistant] && o.parents == n.parents[m := n.prompt] && o.current == n.current + {m}
    && o.prompt == n.prompt && o.promptSeen == n.promptSeen
  }

  /** Every message has the same share of the text; the late message still has its queue to go. */
  ghost predicate TextsMatch(x: Texts, q: Queue, y: Texts, m: string) {
    && (forall n | ValidId(n) && n != m :: View(x, n) == View(y, n))
    && Flush(View(x, m), m, Waiting(q, m)) == Said(View(y, m), true)
    && y.parts.Keys == x.parts.Keys + Keyed(y.parts, m).Keys
  }

  /** `final` tells whether the early announcement was final. */
  ghost predicate Paired(t: State, u: State, m: string, final: bool) {
    && u.session == t.session && t.armed && u.armed
    && u.final == (t.final || final) && u.idle == t.idle && u.texts.activity
    && NamesMatch(t.names, u.names, m) && u.queue.pending == t.queue.pending - {m}
    && TextsMatch(t.texts, t.queue, u.texts, m)
  }

  // ---------------------------------------------------------------------------
  // Text events

  lemma LateTextMatches(x: Texts, q: Queue, y: Texts, m: string, p: Pending)
    requires TextsMatch(x, q, y, m) && PendingFits(m, p) && Deliver(y, m, p).ok
    ensures TextsMatch(x, Enqueue(q, m, p), Deliver(y, m, p).x, m)
  {
    FlushAppends(View(x, m), m, Waiting(q, m), p);
    DeliverViews(y, m, p);
    LateKeysMatch(x, y, m, p);
    forall n | ValidId(n) && n != m ensures View(x, n) == View(Deliver(y, m, p).x, n) {
      DeliverElsewhere(y, m, n, p);
    }
  }

  lemma LateKeysMatch(x: Texts, y: Texts, m: string, p: Pending)
    requires y.parts.Keys == x.parts.Keys + Keyed(y.parts, m).Keys && PendingFits(m, p) && Deliver(y, m, p).ok
    ensures Deliver(y, m, p).x.parts.Keys == x.parts.Keys + Keyed(Deliver(y, m, p).x.parts, m).Keys
  {
    DeliverKeys(y, m, p);
    DeliveredKeys(y, m, p);
  }

  lemma OtherTextMatches(x: Texts, q: Queue, y: Texts, m: string, k: string, p: Pending)
    requires TextsMatch(x, q, y, m) && k != m && PendingFits(k, p) && ValidId(m) && Deliver(y, k, p).ok
    requires |Deliver(y, k, p).x.parts| <= MAX_PARTS
    ensures Deliver(x, k, p).ok && TextsMatch(Deliver(x, k, p).x, q, Deliver(y, k, p).x, m)
  {
    var z := Deliver(y, k, p).x;
    DeliveredKeys(y, k, p);
    assert |z.parts.Keys| == |z.parts|;
    SameDelivery(y, x, k, p, z.parts.Keys);
    DeliveredKeys(x, k, p);
    SplitKeys(x.parts, y.parts, Deliver(x, k, p).x.parts, z.parts, m, k);
    forall n | ValidId(n) && n != k ensures View(Deliver(x, k, p).x, n) == View(x, n) && View(z, n) == View(y, n) {
      DeliverElsewhere(x, k, n, p);
      DeliverElsewhere(y, k, n, p);
    }
    assert Keyed(z.parts, m) == Keyed(y.parts, m) && Keyed(z.parts, k) == Keyed(Deliver(x, k, p).x.parts, k);
  }

  /** Both streams add the same parts of another message. */
  lemma SplitKeys(x: map<string, Part>, y: map<string, Part>, x1: map<string, Part>, y1: map<string, Part>, m: string, k: string)
    requires y.Keys == x.Keys + Keyed(y, m).Keys && x1.Keys == x.Keys + Keyed(x1, k).Keys && y1.Keys == y.Keys + Keyed(y1, k).Keys
    ensures Keyed(y1, k) == Keyed(x1, k) && Keyed(y1, m) == Keyed(y, m) ==> y1.Keys == x1.Keys + Keyed(y1, m).Keys
  {
  }

  lemma OtherFlushMatches(x: Texts, q: Queue, y: Texts, m: string, k: string, ps: seq<Pending>)
    requires TextsMatch(x, q, y, m) && k != m && (forall p | p in ps :: PendingFits(k, p)) && ValidId(k) && ValidId(m)
    requires Flush(y, k, ps).ok && |Flush(y, k, ps).x.parts| <= MAX_PARTS
    ensures Flush(x, k, ps).ok && TextsMatch(Flush(x, k, ps).x, q, Flush(y, k, ps).x, m)
  {
    var z := Flush(y, k, ps).x;
    FlushedKeys(y, k, ps);
    assert |z.parts.Keys| == |z.parts|;
    SameFlush(y, x, k, ps, z.parts.Keys);
    FlushedKeys(x, k, ps);
    SplitKeys(x.parts, y.parts, Flush(x, k, ps).x.parts, z.parts, m, k);
    forall n | ValidId(n) && n != k ensures View(Flush(x, k, ps).x, n) == View(x, n) && View(z, n) == View(y, n) {
      FlushElsewhere(x, k, n, ps);
      FlushElsewhere(y, k, n, ps);
    }
    assert Keyed(z.parts, m) == Keyed(y.parts, m) && Keyed(z.parts, k) == Keyed(Flush(x, k, ps).x.parts, k);
  }

  /** The text event does not overflow the queue of the late stream. */
  predicate Roomy(t: State, body: Body) {
    TextOf(body).Carried? && TextOf(body).message !in t.names.roles ==> Fits(t.queue, TextOf(body).p)
  }

  lemma StillPaired(t: State, u: State, m: string, final: bool, x: Texts, q: Queue, y: Texts, r: Queue)
    requires Paired(t, u, m, final) && TextsMatch(x, q, y, m) && y.activity && r.pending == q.pending - {m}
    ensures Paired(t.(texts := x, queue := q), u.(texts := y, queue := r), m, final)
  {
  }

  lemma LatePaired(t: State, u: State, m: string, final: bool, p: Pending, y: Texts)
    requires Paired(t, u, m, final) && TextsMatch(t.texts, Enqueue(t.queue, m, p), y, m) && y.activity
    ensures Paired(t.(queue := Enqueue(t.queue, m, p)), u.(texts := y), m, final)
  {
    var q := Enqueue(t.queue, m, p);
    assert q.pending - {m} == t.queue.pending - {m};
    StillPaired(t, u, m, final, t.texts, q, y, u.queue);
  }

  lemma LateOfferMatches(t: State, u: State, m: string, final: bool, p: Pending)
    requires Paired(t, u, m, final) && PendingFits(m, p) && Offer(u, m, p).reply.Next? && Fits(t.queue, p) && m !in t.names.current
    ensures Offer(t, m, p).reply.Next? && Paired(Offer(t, m, p).t, Offer(u, m, p).t, m, final)
  {
    LateTextMatches(t.texts, t.queue, u.texts, m, p);
    DeliverGrows(u.texts, m, p);
    LatePaired(t, u, m, final, p, Deliver(u.texts, m, p).x);
  }

  lemma SentOfferMatches(t: State, u: State, m: string, final: bool, k: string, p: Pending)
    requires Paired(t, u, m, final) && Inv(u) && k != m && k in t.names.current && PendingFits(k, p) && ValidId(m)
    requires Offer(u, k, p).reply.Next?
    ensures Offer(t, k, p).reply.Next? && Paired(Offer(t, k, p).t, Offer(u, k, p).t, m, final)
  {
    DeliverFits(u.texts, u.names.current, k, p);
    OtherTextMatches(t.texts, t.queue, u.texts, m, k, p);
    DeliverGrows(u.texts, k, p);
  }

  lemma QueuedOfferMatches(t: State, u: State, m: string, final: bool, k: string, p: Pending)
    requires Paired(t, u, m, final) && k != m && k !in t.names.current
    requires Offer(u, k, p).reply.Next? && (k !in t.names.roles ==> Fits(t.queue, p))
    ensures Offer(t, k, p).reply.Next? && Paired(Offer(t, k, p).t, Offer(u, k, p).t, m, final)
  {
    assert Waiting(u.queue, k) == Waiting(t.queue, k);
    assert Waiting(Enqueue(t.queue, k, p), m) == Waiting(t.queue, m);
  }

  lemma OfferMatches(t: State, u: State, m: string, final: bool, k: string, p: Pending)
    requires Paired(t, u, m, final) && Inv(t) && Inv(u) && ValidId(m) && PendingFits(k, p)
    requires Offer(u, k, p).reply.Next? && (k !in t.names.roles ==> Fits(t.queue, p))
    ensures Offer(t, k, p).reply.Next? && Paired(Offer(t, k, p).t, Offer(u, k, p).t, m, final)
  {
    if k == m {
      LateOfferMatches(t, u, m, final, p);
    } else if k in t.names.current {
      SentOfferMatches(t, u, m, final, k, p);
    } else {
      QueuedOfferMatches(t, u, m, final, k, p);
    }
  }

  /** The text that both streams can take keeps them paired. */
  ghost predicate OffersMatch(t: State, u: State, m: string, final: bool) {
    forall k, p | PendingFits(k, p) && Offer(u, k, p).reply.Next? && (k !in t.names.roles ==> Fits(t.queue, p)) ::
      Offer(t, k, p).reply.Next? && Paired(Offer(t, k, p).t, Offer(u, k, p).t, m, final)
  }

  lemma AllOffersMatch(t: State, u: State, m: string, final: bool)
    requires Paired(t, u, m, final) && Inv(t) && Inv(u) && ValidId(m)
    ensures OffersMatch(t, u, m, final)
  {
    forall k, p | PendingFits(k, p) && Offer(u, k, p).reply.Next? && (k !in t.names.roles ==> Fits(t.queue, p))
      ensures Offer(t, k, p).reply.Next? && Paired(Offer(t, k, p).t, Offer(u, k, p).t, m, final)
    {
      OfferMatches(t, u, m, final, k, p);
    }
  }

  lemma TextEventMatches(t: State, u: State, m: string, final: bool, body: Body)
    requires Paired(t, u, m, final) && OffersMatch(t, u, m, final) && !TextEvent(u, body).reply.Fail? && Roomy(t, body)
    ensures !TextEvent(t, body).reply.Fail? && Paired(TextEvent(t, body).t, TextEvent(u, body).t, m, final)
  {
    TextOfFits(body);
  }

  // ---------------------------------------------------------------------------
  // Announcements of other messages

  lemma RefusedMatches(n: Names, o: Names, m: string, info: Info)
    requires NamesMatch(n, o, m) && info.id != m && info.role.Some? && !Refused(o, info)
    ensures !Refused(n, info)
  {
    assert |o.roles| == |n.roles| + 1;
  }

  lemma UpdatesCommute<V>(f: map<string, V>, m: string, a: V, k: string, b: V)
    requires k != m
    ensures f[m := a][k := b] == f[k := b][m := a]
  {
  }

  lemma RegisterMatches(n: Names, o: Names, m: string, info: Info)
    requires NamesMatch(n, o, m) && info.id != m && info.role.Some?
    ensures NamesMatch(Register(n, info), Register(o, info), m)
    ensures Answers(n, info) == Answers(o, info)
  {
    UpdatesCommute(n.roles, m, Assistant, info.id, info.role.value);
    UpdatesCommute(n.parents, m, n.prompt, info.id, info.parent);
  }

  lemma ActivityMatches(x: Texts, q: Queue, y: Texts, m: string, a: bool, b: bool)
    requires TextsMatch(x, q, y, m)
    ensures TextsMatch(x.(activity := a), q, y.(activity := b), m)
  {
    var x', y' := x.(activity := a), y.(activity := b);
    assert forall n :: View(x', n) == View(x, n) && View(y', n) == View(y, n);
  }

  lemma ClearMatches(x: Texts, q: Queue, y: Texts, m: string, k: string)
    requires TextsMatch(x, q, y, m) && k != m
    ensures TextsMatch(x, ClearPending(q, k), y, m)
  {
    assert Waiting(ClearPending(q, k), m) == Waiting(q, m);
  }

  lemma RegisteredMatches(t: State, u: State, m: string, final: bool, info: Info)
    requires Paired(t, u, m, final) && info.id != m && info.role.Some? && !Refused(u.names, info)
    ensures !Refused(t.names, info) && Paired(Registered(t, info), Registered(u, info), m, final)
  {
    RefusedMatches(t.names, u.names, m, info);
    RegisterMatches(t.names, u.names, m, info);
    ActivityMatches(t.texts, t.queue, u.texts, m, t.texts.activity || Answers(t.names, info),
                    u.texts.activity || Answers(u.names, info));
  }

  lemma FlushStaysFit(x: Texts, current: set<string>, m: string, ps: seq<Pending>)
    requires TextsFit(x, current) && m in current && x.activity && forall p | p in ps :: PendingFits(m, p)
    ensures Flush(x, m, ps).x.activity && |Flush(x, m, ps).x.parts| <= MAX_PARTS
  {
    FlushFits(x, current, m, ps);
    FlushGrows(x, m, ps);
  }

  lemma ClearedPaired(t: State, u: State, m: string, final: bool, k: string, x: Texts, y: Texts)
    requires Paired(t, u, m, final) && TextsMatch(x, t.queue, y, m) && y.activity && k != m
    ensures Paired(t.(texts := x, queue := ClearPending(t.queue, k)), u.(texts := y, queue := ClearPending(u.queue, k)), m, final)
  {
    var q, r := ClearPending(t.queue, k), ClearPending(u.queue, k);
    ClearMatches(x, t.queue, y, m, k);
    assert r.pending == q.pending - {m};
    StillPaired(t, u, m, final, x, q, y, r);
  }

  lemma FlushAndClearMatches(t: State, u: State, m: string, final: bool, k: string)
    requires Paired(t, u, m, final) && TextsFit(u.texts, u.names.current) && k != m && k in u.names.current
    requires ValidId(k) && ValidId(m) && forall p | p in Waiting(t.queue, k) :: PendingFits(k, p)
    requires !FlushAndClear(u, k).reply.Fail?
    ensures !FlushAndClear(t, k).reply.Fail? && Paired(FlushAndClear(t, k).t, FlushAndClear(u, k).t, m, final)
  {
    var ps := Waiting(t.queue, k);
    assert Waiting(u.queue, k) == ps;
    FlushStaysFit(u.texts, u.names.current, k, ps);
    OtherFlushMatches(t.texts, t.queue, u.texts, m, k, ps);
    ClearedPaired(t, u, m, final, k, Flush(t.texts, k, ps).x, Flush(u.texts, k, ps).x);
  }

  lemma FinishMatches(t: State, u: State, m: string, final: bool, more: bool)
    requires Paired(t, u, m, final)
    ensures Paired(t.(final := t.final || more), u.(final := u.final || more), m, final)
  {
  }

  lemma AnnounceCurrentMatches(t: State, u: State, m: string, final: bool, info: Info)
    requires Paired(t, u, m, final) && TextsFit(u.texts, u.names.current) && info.id != m && info.id in u.names.current
    requires ValidId(info.id) && ValidId(m) && forall p | p in Waiting(t.queue, info.id) :: PendingFits(info.id, p)
    requires !AnnounceCurrent(u, info).reply.Fail?
    ensures !AnnounceCurrent(t, info).reply.Fail?
    ensures Paired(AnnounceCurrent(t, info).t, AnnounceCurrent(u, info).t, m, final)
  {
    var more := info.finish.FinalFinish?;
    FinishMatches(t, u, m, final, more);
    FlushAndClearMatches(t.(final := t.final || more), u.(final := u.final || more), m, final, info.id);
  }

  lemma AnnounceMatches(t: State, u: State, m: string, final: bool, info: Info)
    requires Paired(t, u, m, final) && Inv(t) && Inv(u) && ValidId(m) && info.id != m && !Announce(u, info).reply.Fail?
    ensures !Announce(t, info).reply.Fail? && Paired(Announce(t, info).t, Announce(u, info).t, m, final)
  {
    if info.role.Some? {
      RegisteredMatches(t, u, m, final, info);
      RegisteredIsSound(u, info);
      var t1, u1 := Registered(t, info), Registered(u, info);
      if info.id in u1.names.current {
        AnnounceCurrentMatches(t1, u1, m, final, info);
      } else {
        ClearedPaired(t1, u1, m, final, info.id, t1.texts, u1.texts);
      }
    }
  }

  // ---------------------------------------------------------------------------
  // Everything else

  predicate ReportsIdle(body: Body) {
    body.Idle? || body == Status(Some("idle"))
  }

  /** The event is not one that is ignored for want of activity. */
  predicate Timely(t: State, body: Body) {
    && (ReportsIdle(body) ==> t.texts.activity)
    && (body.SessionError? ==> t.texts.activity || t.names.promptSeen)
  }

  lemma ForwardMatches(t: State, u: State, m: string, final: bool, name: string)
    requires Paired(t, u, m, final)
    ensures Paired(Forward(t, name), Forward(u, name), m, final)
  {
    var e := ProviderState(name);
    forall n ensures View(Forward(t, name).texts, n) == View(t.texts, n) && View(Forward(u, name).texts, n) == View(u.texts, n) {
      SentAppends(t.texts.sent, e, n);
      SentAppends(u.texts.sent, e, n);
    }
  }

  lemma IdleMatches(t: State, u: State, m: string, final: bool)
    requires Paired(t, u, m, final) && t.texts.activity
    ensures Paired(ObserveIdle(t).t, ObserveIdle(u).t, m, final)
  {
  }

  lemma SignalMatches(t: State, u: State, m: string, final: bool, body: Body)
    requires Paired(t, u, m, final) && !Signal(u, body).reply.Fail? && Timely(t, body)
    ensures !Signal(t, body).reply.Fail? && Paired(Signal(t, body).t, Signal(u, body).t, m, final)
  {
    match body
    case Status(state) =>
      ForwardMatches(t, u, m, final, state.value);
      if state.value == "idle" {
        IdleMatches(Forward(t, state.value), Forward(u, state.value), m, final);
      }
    case Idle => IdleMatches(t, u, m, final);
    case Other(tool, message) =>
      ActivityMatches(t.texts, t.queue, u.texts, m, t.texts.activity || (tool && message in t.names.current),
                      u.texts.activity || (tool && message in u.names.current));
    case _ =>
  }

  predicate About(body: Body, m: string) {
    body.MessageUpdated? && body.info.Some? && body.info.value.id == m
  }

  predicate Textual(body: Body) {
    body.PartDelta? || body.PartUpdated? || body.TextDelta?
  }

  lemma DispatchMatches(t: State, u: State, m: string, final: bool, body: Body)
    requires Paired(t, u, m, final) && Inv(t) && Inv(u) && ValidId(m)
    requires !About(body, m) && Roomy(t, body) && Timely(t, body) && !Dispatch(u, body).reply.Fail?
    ensures !Dispatch(t, body).reply.Fail? && Paired(Dispatch(t, body).t, Dispatch(u, body).t, m, final)
  {
    if body.MessageUpdated? {
      if body.info.Some? {
        AnnounceMatches(t, u, m, final, body.info.value);
      }
    } else if Textual(body) {
      assert Dispatch(t, body) == TextEvent(t, body) && Dispatch(u, body) == TextEvent(u, body);
      AllOffersMatch(t, u, m, final);
      TextEventMatches(t, u, m, final, body);
    } else {
      SignalMatches(t, u, m, final, body);
    }
  }

  // ---------------------------------------------------------------------------
  // Streams

  predicate SeenMatch(t: State, u: State, id: string) {
    id !in t.seen && u.seen == t.seen + {id} && |u.seen| <= MAX_EVENTS
  }

  /** An event of the common stream: not another announcement of the message. */
  predicate Common(i: Input, m: string, id: string) {
    i.r.Record? ==> i.r.id != id && !About(i.r.body, m)
  }

  /** The late stream has room to queue the event's text, and does not ignore it for want of activity. */
  predicate Calm(t: State, i: Input) {
    Heard(t, i) ==> Roomy(t, i.r.body) && Timely(t, i.r.body)
  }

  function Noted(t: State, r: Record): State
    requires r.Record?
  {
    t.(seen := t.seen + {r.id})
  }

  lemma ConsumeIsDispatch(t: State, i: Input)
    requires t.armed
    ensures Consume(t, i.dispatched, i.r) ==
            if Undecodable(i.r) then Did(t, Fail(ProtocolError))
            else if !Heard(t, i) then Did(t, Next)
            else if |t.seen| >= MAX_EVENTS then Did(t, Fail(ProtocolError))
            else Dispatch(Noted(t, i.r), i.r.body)
  {
    assert t.(armed := t.armed || i.dispatched) == t;
  }

  lemma NotedMatches(t: State, u: State, m: string, final: bool, id: string, i: Input)
    requires Paired(t, u, m, final) && Inv(t) && Inv(u) && SeenMatch(t, u, id)
    requires Heard(t, i) && i.r.id != id && |u.seen| < MAX_EVENTS
    ensures |t.seen| < MAX_EVENTS
    ensures var t1, u1 := Noted(t, i.r), Noted(u, i.r);
            Paired(t1, u1, m, final) && Inv(t1) && Inv(u1) && SeenMatch(t1, u1, id)
  {
    assert Noted(u, i.r).seen == Noted(t, i.r).seen + {id};
  }

  lemma HeardMatches(t: State, u: State, id: string, i: Input)
    requires t.armed && u.armed && u.session == t.session && SeenMatch(t, u, id) && (i.r.Record? ==> i.r.id != id)
    ensures Heard(t, i) == Heard(u, i)
  {
  }

  lemma DispatchKeepsSeen(t: State, body: Body)
    ensures Dispatch(t, body).t.seen == t.seen
  {
  }

  /** The turn is not over, and would not be with the announcement. */
  predicate Unfinished(t: State, final: bool) {
    !(t.idle && (t.final || final))
  }

  lemma ConsumeMatches(t: State, u: State, m: string, final: bool, id: string, i: Input)
    requires Paired(t, u, m, final) && Inv(t) && Inv(u) && ValidId(m) && SeenMatch(t, u, id) && Common(i, m, id) && Calm(t, i)
    requires !Consume(u, i.dispatched, i.r).reply.Fail?
    ensures !Consume(t, i.dispatched, i.r).reply.Fail?
    ensures Paired(Consume(t, i.dispatched, i.r).t, Consume(u, i.dispatched, i.r).t, m, final)
    ensures SeenMatch(Consume(t, i.dispatched, i.r).t, Consume(u, i.dispatched, i.r).t, id)
  {
    ConsumeIsDispatch(t, i);
    ConsumeIsDispatch(u, i);
    HeardMatches(t, u, id, i);
    if Heard(t, i) {
      NotedMatches(t, u, m, final, id, i);
      var t1, u1 := Noted(t, i.r), Noted(u, i.r);
      DispatchMatches(t1, u1, m, final, i.r.body);
      DispatchKeepsSeen(t1, i.r.body);
      DispatchKeepsSeen(u1, i.r.body);
    }
  }

  /** Along the late stream, up to an error: calm events, and the turn does not end. */
  predicate CalmAll(t: State, final: bool, events: seq<Input>)
    decreases |events|
  {
    && Unfinished(t, final)
    && (events == []
        || (Calm(t, events[0])
            && var d := Consume(t, events[0].dispatched, events[0].r);
            d.reply.Fail? || CalmAll(d.t, final, events[1..])))
  }

  lemma CalmBegins(t: State, final: bool, events: seq<Input>)
    requires CalmAll(t, final, events)
    ensures Unfinished(t, final)
  {
  }

  /** In an unfinished turn an event without an error asks for the next one. */
  lemma UnfinishedGoesOn(t: State, i: Input, final: bool)
    requires Unfinished(Consume(t, i.dispatched, i.r).t, final) && !Consume(t, i.dispatched, i.r).reply.Fail?
    ensures Consume(t, i.dispatched, i.r).reply.Next?
  {
    ConsumeCauses(t, i);
  }

  lemma PairGoesOn(t: State, u: State, m: string, final: bool, id: string, i: Input)
    requires Paired(t, u, m, final) && Inv(t) && Inv(u) && ValidId(m) && SeenMatch(t, u, id) && Common(i, m, id) && Calm(t, i)
    requires !Consume(u, i.dispatched, i.r).reply.Fail? && Unfinished(Consume(t, i.dispatched, i.r).t, final)
    ensures var d, e := Consume(t, i.dispatched, i.r), Consume(u, i.dispatched, i.r);
            d.reply.Next? && e.reply.Next? && Paired(d.t, e.t, m, final) && SeenMatch(d.t, e.t, id) && Inv(d.t) && Inv(e.t)
  {
    ConsumeMatches(t, u, m, final, id, i);
    ConsumeKeepsInv(t, i.dispatched, i.r);
    ConsumeKeepsInv(u, i.dispatched, i.r);
    UnfinishedGoesOn(t, i, final);
    UnfinishedGoesOn(u, i, false);
  }

  lemma {:induction false} ConsumeAllMatches(t: State, u: State, m: string, final: bool, id: string, events: seq<Input>)
    requires Paired(t, u, m, final) && Inv(t) && Inv(u) && ValidId(m) && SeenMatch(t, u, id)
    requires (forall i | i in events :: Common(i, m, id)) && CalmAll(t, final, events) && !ConsumeAll(u, events).reply.Fail?
    ensures var d, e := ConsumeAll(t, events), ConsumeAll(u, events);
            && d.reply.Next? && e.reply.Next? && Paired(d.t, e.t, m, final) && SeenMatch(d.t, e.t, id)
            && Inv(d.t) && Inv(e.t) && Unfinished(d.t, final)
    decreases |events|
  {
    if events != [] {
      var i := events[0];
      ConsumeMatches(t, u, m, final, id, i);
      CalmBegins(Consume(t, i.dispatched, i.r).t, final, events[1..]);
      PairGoesOn(t, u, m, final, id, i);
      ConsumeAllMatches(Consume(t, i.dispatched, i.r).t, Consume(u, i.dispatched, i.r).t, m, final, id, events[1..]);
    }
  }
}
