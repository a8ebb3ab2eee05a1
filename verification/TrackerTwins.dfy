/**
 Two states that differ only in how the deltas of different messages interleave
 take the same events with the same replies, and stay that way.
 */
module TrackerTwins {
  import opened Tracker
  import opened TrackerInvariant
  import opened TrackerViews
  import opened TrackerTheorems
  import opened TrackerPairing

  ghost predicate TextsTwin(x: Texts, y: Texts) {
    x.activity && y.activity && x.parts.Keys == y.parts.Keys && forall n | ValidId(n) :: View(x, n) == View(y, n)
  }

  ghost predicate Twin(t: State, u: State) {
    u == t.(texts := u.texts) && t.armed && TextsTwin(t.texts, u.texts)
  }

  lemma DeliverTwin(x: Texts, y: Texts, k: string, p: Pending)
    requires TextsTwin(x, y) && PendingFits(k, p) && Deliver(x, k, p).ok && |Deliver(x, k, p).x.parts| <= MAX_PARTS
    ensures Deliver(y, k, p).ok && TextsTwin(Deliver(x, k, p).x, Deliver(y, k, p).x)
  {
    var z := Deliver(x, k, p).x;
    DeliveredKeys(x, k, p);
    assert |z.parts.Keys| == |z.parts|;
    SameDelivery(x, y, k, p, z.parts.Keys);
    DeliveredKeys(y, k, p);
    assert Keyed(z.parts, k) == Keyed(Deliver(y, k, p).x.parts, k);
    DeliverGrows(x, k, p);
    DeliverGrows(y, k, p);
    forall n | ValidId(n) && n != k ensures View(z, n) == View(Deliver(y, k, p).x, n) {
      DeliverElsewhere(x, k, n, p);
      DeliverElsewhere(y, k, n, p);
    }
  }

  lemma FlushTwin(x: Texts, y: Texts, k: string, ps: seq<Pending>)
    requires TextsTwin(x, y) && ValidId(k) && (forall p | p in ps :: PendingFits(k, p))
    requires Flush(x, k, ps).ok && |Flush(x, k, ps).x.parts| <= MAX_PARTS
    ensures Flush(y, k, ps).ok && TextsTwin(Flush(x, k, ps).x, Flush(y, k, ps).x)
  {
    var z := Flush(x, k, ps).x;
    FlushedKeys(x, k, ps);
    assert |z.parts.Keys| == |z.parts|;
    SameFlush(x, y, k, ps, z.parts.Keys);
    FlushedKeys(y, k, ps);
    assert Keyed(z.parts, k) == Keyed(Flush(y, k, ps).x.parts, k);
    FlushGrows(x, k, ps);
    FlushGrows(y, k, ps);
    forall n | ValidId(n) && n != k ensures View(z, n) == View(Flush(y, k, ps).x, n) {
      FlushElsewhere(x, k, n, ps);
      FlushElsewhere(y, k, n, ps);
    }
  }

  lemma TwinIsSymmetric(t: State, u: State)
    requires Twin(t, u)
    ensures Twin(u, t)
  {
  }

  /** `e` answers as `d` does, without an error, and leaves a twin. */
  ghost predicate Echoes(d: Did, e: Did) {
    e.reply == d.reply && Twin(d.t, e.t)
  }

  lemma OfferEchoes(t: State, u: State, k: string, p: Pending)
    requires Twin(t, u) && Inv(t) && PendingFits(k, p) && !Offer(t, k, p).reply.Fail?
    ensures Echoes(Offer(t, k, p), Offer(u, k, p))
  {
    if k in t.names.current {
      DeliverFits(t.texts, t.names.current, k, p);
      DeliverTwin(t.texts, u.texts, k, p);
    }
  }

  lemma TextEventEchoes(t: State, u: State, body: Body)
    requires Twin(t, u) && Inv(t) && !TextEvent(t, body).reply.Fail?
    ensures Echoes(TextEvent(t, body), TextEvent(u, body))
  {
    var c := TextOf(body);
    if c.Carried? {
      TextOfFits(body);
      assert TextEvent(t, body) == Offer(t, c.message, c.p) && TextEvent(u, body) == Offer(u, c.message, c.p);
      OfferEchoes(t, u, c.message, c.p);
    }
  }

  lemma ActivityTwin(x: Texts, y: Texts)
    requires TextsTwin(x, y)
    ensures x.(activity := true) == x && y.(activity := true) == y
  {
  }

  lemma FlushEchoes(t: State, u: State, m: string)
    requires Twin(t, u) && TextsFit(t.texts, t.names.current) && m in t.names.current && ValidId(m)
    requires (forall p | p in Waiting(t.queue, m) :: PendingFits(m, p)) && !FlushAndClear(t, m).reply.Fail?
    ensures Echoes(FlushAndClear(t, m), FlushAndClear(u, m))
  {
    FlushFits(t.texts, t.names.current, m, Waiting(t.queue, m));
    FlushTwin(t.texts, u.texts, m, Waiting(t.queue, m));
  }

  lemma AnnounceEchoes(t: State, u: State, info: Info)
    requires Twin(t, u) && Inv(t) && !Announce(t, info).reply.Fail?
    ensures Echoes(Announce(t, info), Announce(u, info))
  {
    ActivityTwin(t.texts, u.texts);
    if info.role.Some? {
      RegisteredIsSound(t, info);
      var t1, u1 := Registered(t, info), Registered(u, info);
      assert Twin(t1, u1);
      if info.id in t1.names.current {
        var final := t.final || info.finish.FinalFinish?;
        FlushEchoes(t1.(final := final), u1.(final := final), info.id);
      }
    }
  }

  lemma SignalEchoes(t: State, u: State, body: Body)
    requires Twin(t, u) && !Signal(t, body).reply.Fail?
    ensures Echoes(Signal(t, body), Signal(u, body))
  {
    ActivityTwin(t.texts, u.texts);
    if body.Status? {
      forall n | ValidId(n) ensures View(Forward(t, body.state.value).texts, n) == View(Forward(u, body.state.value).texts, n) {
        SentAppends(t.texts.sent, ProviderState(body.state.value), n);
        SentAppends(u.texts.sent, ProviderState(body.state.value), n);
        assert View(t.texts, n) == View(u.texts, n);
      }
    }
  }

  lemma DispatchEchoes(t: State, u: State, body: Body)
    requires Twin(t, u) && Inv(t) && !Dispatch(t, body).reply.Fail?
    ensures Echoes(Dispatch(t, body), Dispatch(u, body))
  {
    match body
    case MessageUpdated(info) => if info.Some? { AnnounceEchoes(t, u, info.value); }
    case PartDelta(_, _, _, _) | PartUpdated(_) | TextDelta(_, _, _) => TextEventEchoes(t, u, body);
    case _ => SignalEchoes(t, u, body);
  }

  lemma ConsumeEchoes(t: State, u: State, i: Input)
    requires Twin(t, u) && Inv(t) && !Consume(t, i.dispatched, i.r).reply.Fail?
    ensures Echoes(Consume(t, i.dispatched, i.r), Consume(u, i.dispatched, i.r))
  {
    ConsumeIsDispatch(t, i);
    ConsumeIsDispatch(u, i);
    if Heard(t, i) {
      DispatchEchoes(Noted(t, i.r), Noted(u, i.r), i.r.body);
    }
  }

  lemma {:induction false} StreamEchoes(t: State, u: State, inputs: seq<Input>)
    requires Twin(t, u) && Inv(t) && !ConsumeAll(t, inputs).reply.Fail?
    ensures Echoes(ConsumeAll(t, inputs), ConsumeAll(u, inputs))
    decreases |inputs|
  {
    if inputs != [] {
      var i := inputs[0];
      ConsumeEchoes(t, u, i);
      ConsumeKeepsInv(t, i.dispatched, i.r);
      if Consume(t, i.dispatched, i.r).reply.Next? {
        StreamEchoes(Consume(t, i.dispatched, i.r).t, Consume(u, i.dispatched, i.r).t, inputs[1..]);
      }
    }
  }

  /** Twins fail on the same streams, and otherwise answer alike and stay twins. */
  lemma TwinsAnswerAlike(t: State, u: State, inputs: seq<Input>)
    requires Twin(t, u) && Inv(t) && Inv(u)
    ensures var d, e := ConsumeAll(t, inputs), ConsumeAll(u, inputs);
            (d.reply.Fail? && e.reply.Fail?) || Echoes(d, e)
  {
    if !ConsumeAll(t, inputs).reply.Fail? {
      StreamEchoes(t, u, inputs);
    } else if !ConsumeAll(u, inputs).reply.Fail? {
      TwinIsSymmetric(t, u);
      StreamEchoes(u, t, inputs);
    }
  }
}
