/**
 What a whole event stream guarantees, whatever its events are.
 */
module TrackerTheorems {
  import opened Base
  import opened Tracker
  import opened TrackerInvariant

  // ---------------------------------------------------------------------------
  // Parts and queue

  /** The message-part deltas of a key spell the stored part, on one stream; the queue's counters are exact and bounded. */
  lemma DeltasSpellTheParts(session: string, prompt: string, inputs: seq<Input>, key: string)
    ensures var t := ConsumeAll(New(session, prompt), inputs).t;
            && PartText(t.texts.sent, key) == StoredText(t.texts, key)
            && (forall e | e in t.texts.sent && e.Delta? && e.family.MessagePart? && e.key == key ::
                  key in t.texts.parts && e.kind == t.texts.parts[key].kind)
            && QueueFits(t.queue)
  {
    NewFits(session, prompt);
    ConsumeAllKeepsInv(New(session, prompt), inputs);
    var x, current := ConsumeAll(New(session, prompt), inputs).t.texts, ConsumeAll(New(session, prompt), inputs).t.names.current;
    forall e | e in x.sent && e.Delta? && e.family.MessagePart? && e.key == key ensures key in x.parts && e.kind == x.parts[key].kind {
      assert SentFits(x, current, e);
    }
  }

  /** Whatever comes later, a stored part keeps its kind and only grows by extension. */
  lemma PartsOnlyExtend(session: string, prompt: string, before: seq<Input>, after: seq<Input>, key: string)
    requires ConsumeAll(New(session, prompt), before).reply.Next?
    requires key in ConsumeAll(New(session, prompt), before).t.texts.parts
    ensures ConsumeAll(New(session, prompt), before + after).t == ConsumeAll(ConsumeAll(New(session, prompt), before).t, after).t
    ensures var x := ConsumeAll(New(session, prompt), before).t.texts;
            var y := ConsumeAll(New(session, prompt), before + after).t.texts;
            key in y.parts && PartGrows(x.parts[key], y.parts[key])
  {
    NewFits(session, prompt);
    ConsumeAllJoins(New(session, prompt), before, after);
    ConsumeAllKeepsInv(New(session, prompt), before);
    ConsumeAllKeepsInv(ConsumeAll(New(session, prompt), before).t, after);
  }

  lemma {:induction false} ConsumeAllJoins(t: State, a: seq<Input>, b: seq<Input>)
    ensures ConsumeAll(t, a + b) == if ConsumeAll(t, a).reply.Next? then ConsumeAll(ConsumeAll(t, a).t, b) else ConsumeAll(t, a)
    decreases |a|
  {
    if a == [] {
      assert a + b == b;
    } else {
      assert (a + b)[1..] == a[1..] + b;
      ConsumeAllJoins(Consume(t, a[0].dispatched, a[0].r).t, a[1..], b);
    }
  }

  // ---------------------------------------------------------------------------
  // Where deltas come from

  /** Every delta belongs to an assistant message whose parent is the prompt, and the prompt never changes again. */
  lemma DeltasAnswerThePrompt(session: string, prompt: string, before: seq<Input>, after: seq<Input>, e: Sent)
    requires ConsumeAll(New(session, prompt), before).reply.Next?
    requires e in ConsumeAll(New(session, prompt), before).t.texts.sent && e.Delta?
    ensures var n := ConsumeAll(New(session, prompt), before).t.names;
            var o := ConsumeAll(New(session, prompt), before + after).t.names;
            && n.prompt != "" && o.prompt == n.prompt
            && e.message in o.roles && o.roles[e.message] == Assistant
            && e.message in o.parents && o.parents[e.message] == o.prompt
  {
    NewFits(session, prompt);
    ConsumeAllJoins(New(session, prompt), before, after);
    ConsumeAllKeepsInv(New(session, prompt), before);
    var t := ConsumeAll(New(session, prompt), before).t;
    assert SentFits(t.texts, t.names.current, e);
    ConsumeAllKeepsInv(t, after);
  }

  /** As long as the message's family is not settled, no part is sent by both families. */
  lemma OneFamilyPerPart(session: string, prompt: string, inputs: seq<Input>, d: Sent, e: Sent)
    requires var x := ConsumeAll(New(session, prompt), inputs).t.texts;
             d in x.sent && e in x.sent && d.Delta? && e.Delta? && d.message == e.message && d.key == e.key && d.message !in x.fallback
    ensures d.family == e.family
  {
    NewFits(session, prompt);
    ConsumeAllKeepsInv(New(session, prompt), inputs);
    var t := ConsumeAll(New(session, prompt), inputs).t;
    assert SentFits(t.texts, t.names.current, d) && SentFits(t.texts, t.names.current, e);
  }

  /** What is sent after `x` for a message settled in `x` comes from the settled family. */
  predicate KeepsFamily(x: Texts, y: Texts) {
    && x.sent <= y.sent
    && forall i | |x.sent| <= i < |y.sent| ::
         y.sent[i].Delta? && y.sent[i].message in x.fallback ==> y.sent[i].family == x.fallback[y.sent[i].message]
  }

  lemma KeepsFamilyTransitively(x: Texts, y: Texts, z: Texts)
    requires TextsGrow(x, y) && KeepsFamily(x, y) && KeepsFamily(y, z)
    ensures KeepsFamily(x, z)
  {
    forall i | |x.sent| <= i < |z.sent| && z.sent[i].Delta? && z.sent[i].message in x.fallback
      ensures z.sent[i].family == x.fallback[z.sent[i].message]
    {
      assert i < |y.sent| ==> z.sent[i] == y.sent[i];
    }
  }

  lemma EmitCompatKeepsFamily(x: Texts, m: string, textId: string, delta: string)
    ensures KeepsFamily(x, EmitCompat(x, m, textId, delta))
  {
    ClaimGrows(x, m, textId);
    assert Claim(x, m, textId).sent == x.sent;
  }

  lemma ExtendKeepsFamily(x: Texts, m: string, key: string, delta: string)
    requires key in x.parts && !Muted(x, m, key)
    ensures KeepsFamily(x, Extend(x, m, key, delta))
  {
  }

  lemma MergeKeepsFamily(x: Texts, m: string, key: string, text: string)
    requires key in x.parts && !Muted(x, m, key)
    ensures KeepsFamily(x, Merge(x, m, key, text).x)
  {
    var had := x.parts[key].text;
    if had <= text && !(text <= had) {
      ExtendKeepsFamily(x, m, key, text[|had|..]);
    }
  }

  lemma DeliverKeepsFamily(x: Texts, m: string, p: Pending)
    ensures KeepsFamily(x, Deliver(x, m, p).x)
  {
    match p
    case PendingDelta(key, delta) =>
      if !Muted(x, m, key) && GetPart(x, key, None).Some? {
        ExtendKeepsFamily(GetPart(x, key, None).value, m, key, delta);
      }
    case PendingFull(key, kind, text) =>
      if !Muted(x, m, key) && GetPart(x, key, Some(kind)).Some? {
        MergeKeepsFamily(GetPart(x, key, Some(kind)).value, m, key, text);
      }
    case PendingCompat(textId, delta) => EmitCompatKeepsFamily(x, m, textId, delta);
  }

  lemma {:induction false} FlushKeepsFamily(x: Texts, m: string, ps: seq<Pending>)
    ensures KeepsFamily(x, Flush(x, m, ps).x)
    decreases |ps|
  {
    if ps != [] {
      DeliverGrows(x, m, ps[0]);
      DeliverKeepsFamily(x, m, ps[0]);
      if Deliver(x, m, ps[0]).ok {
        FlushKeepsFamily(Deliver(x, m, ps[0]).x, m, ps[1..]);
        KeepsFamilyTransitively(x, Deliver(x, m, ps[0]).x, Flush(x, m, ps).x);
      }
    }
  }

  lemma AdmitKeepsFamily(t: State, info: Info)
    ensures KeepsFamily(t.texts, Admit(t, info).t.texts)
  {
    FlushKeepsFamily(t.texts, info.id, Waiting(t.queue, info.id));
  }

  lemma AnnounceKeepsFamily(t: State, info: Info)
    ensures KeepsFamily(t.texts, Announce(t, info).t.texts)
  {
    if !Refused(t.names, info) && info.role.Some? {
      var t1 := Registered(t, info);
      AdmitKeepsFamily(t1, info);
      assert t1.texts.sent == t.texts.sent && t1.texts.fallback == t.texts.fallback;
    }
  }

  lemma TextEventKeepsFamily(t: State, body: Body)
    ensures KeepsFamily(t.texts, TextEvent(t, body).t.texts)
  {
    match TextOf(body)
    case Carried(m, p) => DeliverKeepsFamily(t.texts, m, p);
    case _ =>
  }

  lemma SignalKeepsFamily(t: State, body: Body)
    ensures KeepsFamily(t.texts, Signal(t, body).t.texts)
  {
  }

  lemma DispatchKeepsFamily(t: State, body: Body)
    ensures KeepsFamily(t.texts, Dispatch(t, body).t.texts)
  {
    match body
    case MessageUpdated(info) => if info.Some? { AnnounceKeepsFamily(t, info.value); }
    case PartDelta(_, _, _, _) | PartUpdated(_) | TextDelta(_, _, _) => TextEventKeepsFamily(t, body);
    case _ => SignalKeepsFamily(t, body);
  }

  lemma ConsumeKeepsFamily(t: State, dispatched: bool, r: Record)
    ensures KeepsFamily(t.texts, Consume(t, dispatched, r).t.texts)
  {
    var t0 := t.(armed := t.armed || dispatched);
    if !Undecodable(r) && Accepted(t0, r) && |t0.seen| < MAX_EVENTS {
      DispatchKeepsFamily(t0.(seen := t0.seen + {r.id}), r.body);
    }
  }

  /** Once a delta without a text id has settled a message's family, only that family sends for it. */
  lemma {:induction false} SettledFamilyOnly(t: State, inputs: seq<Input>)
    requires Inv(t)
    ensures KeepsFamily(t.texts, ConsumeAll(t, inputs).t.texts)
    decreases |inputs|
  {
    if inputs != [] {
      var d := Consume(t, inputs[0].dispatched, inputs[0].r);
      ConsumeKeepsFamily(t, inputs[0].dispatched, inputs[0].r);
      ConsumeKeepsInv(t, inputs[0].dispatched, inputs[0].r);
      ConsumeGrows(t, inputs[0].dispatched, inputs[0].r);
      if d.reply.Next? {
        SettledFamilyOnly(d.t, inputs[1..]);
        KeepsFamilyTransitively(t.texts, d.t.texts, ConsumeAll(d.t, inputs[1..]).t.texts);
      }
    }
  }

  // ---------------------------------------------------------------------------
  // Success

  function StateAt(t: State, inputs: seq<Input>, i: nat): State
    requires i <= |inputs|
    decreases i
  {
    if i == 0 then t else StateAt(Consume(t, inputs[0].dispatched, inputs[0].r).t, inputs[1..], i - 1)
  }

  /** A current assistant is announced with a finish that is not a tool call. */
  predicate Finishes(t: State, body: Body) {
    && body.MessageUpdated? && body.info.Some?
    && var info := body.info.value;
    info.finish.FinalFinish? && (info.id in t.names.current || Answers(t.names, info))
  }

  predicate IdleAfterActivity(t: State, body: Body) {
    t.texts.activity && (body.Idle? || body == Status(Some("idle")))
  }

  predicate Caused(t: State, body: Body, d: Did) {
    && (d.t.final ==> t.final || Finishes(t, body)) && (d.t.idle ==> t.idle || IdleAfterActivity(t, body))
    && (d.reply.Over? ==> d.t.idle && d.t.final)
  }

  lemma AnnounceCauses(t: State, info: Info)
    ensures Caused(t, MessageUpdated(Some(info)), Announce(t, info))
  {
  }

  lemma TextEventCauses(t: State, body: Body)
    ensures Caused(t, body, TextEvent(t, body))
  {
    var d := TextEvent(t, body);
    assert d.t.final == t.final && d.t.idle == t.idle && !d.reply.Over?;
  }

  lemma DispatchCauses(t: State, body: Body)
    ensures Caused(t, body, Dispatch(t, body))
  {
    match body
    case MessageUpdated(info) => if info.Some? { AnnounceCauses(t, info.value); }
    case PartDelta(_, _, _, _) | PartUpdated(_) | TextDelta(_, _, _) => TextEventCauses(t, body);
    case _ =>
  }

  /** The event reaches the tracker's handlers. */
  predicate Heard(t: State, i: Input) {
    !Undecodable(i.r) && Accepted(t.(armed := t.armed || i.dispatched), i.r)
  }

  predicate CausedBy(t: State, i: Input, d: Did) {
    && (d.t.final ==> t.final || (Heard(t, i) && Finishes(t, i.r.body)))
    && (d.t.idle ==> t.idle || (Heard(t, i) && IdleAfterActivity(t, i.r.body)))
    && (d.reply.Over? ==> d.t.idle && d.t.final)
  }

  lemma ConsumeCauses(t: State, i: Input)
    ensures CausedBy(t, i, Consume(t, i.dispatched, i.r))
  {
    var t0 := t.(armed := t.armed || i.dispatched);
    if Heard(t, i) && |t0.seen| < MAX_EVENTS {
      DispatchCauses(t0.(seen := t0.seen + {i.r.id}), i.r.body);
    }
  }

  ghost predicate SomeFinish(t: State, inputs: seq<Input>) {
    exists i :: 0 <= i < |inputs| && Heard(StateAt(t, inputs, i), inputs[i]) && Finishes(StateAt(t, inputs, i), inputs[i].r.body)
  }

  ghost predicate SomeIdle(t: State, inputs: seq<Input>) {
    exists i :: 0 <= i < |inputs| && Heard(StateAt(t, inputs, i), inputs[i]) && IdleAfterActivity(StateAt(t, inputs, i), inputs[i].r.body)
  }

  lemma LaterEvent(t: State, inputs: seq<Input>)
    requires inputs != []
    ensures var u := Consume(t, inputs[0].dispatched, inputs[0].r).t;
            && (SomeFinish(u, inputs[1..]) ==> SomeFinish(t, inputs))
            && (SomeIdle(u, inputs[1..]) ==> SomeIdle(t, inputs))
  {
    var u := Consume(t, inputs[0].dispatched, inputs[0].r).t;
    if i :| 0 <= i < |inputs[1..]| && Heard(StateAt(u, inputs[1..], i), inputs[1..][i]) && Finishes(StateAt(u, inputs[1..], i), inputs[1..][i].r.body) {
      assert StateAt(t, inputs, i + 1) == StateAt(u, inputs[1..], i) && inputs[i + 1] == inputs[1..][i];
    }
    if i :| 0 <= i < |inputs[1..]| && Heard(StateAt(u, inputs[1..], i), inputs[1..][i]) && IdleAfterActivity(StateAt(u, inputs[1..], i), inputs[1..][i].r.body) {
      assert StateAt(t, inputs, i + 1) == StateAt(u, inputs[1..], i) && inputs[i + 1] == inputs[1..][i];
    }
  }

  lemma {:induction false} FlagsHaveCauses(t: State, inputs: seq<Input>)
    ensures var d := ConsumeAll(t, inputs);
            && (d.t.final ==> t.final || SomeFinish(t, inputs)) && (d.t.idle ==> t.idle || SomeIdle(t, inputs))
            && (d.reply.Over? ==> d.t.idle && d.t.final)
    decreases |inputs|
  {
    if inputs != [] {
      var d := Consume(t, inputs[0].dispatched, inputs[0].r);
      ConsumeCauses(t, inputs[0]);
      assert StateAt(t, inputs, 0) == t;
      if d.reply.Next? {
        FlagsHaveCauses(d.t, inputs[1..]);
        LaterEvent(t, inputs);
      }
    }
  }

  /** A turn succeeds only after a non-tool finish of a current assistant and an idle that followed assistant activity. */
  lemma SuccessHasCauses(session: string, prompt: string, inputs: seq<Input>)
    requires ConsumeAll(New(session, prompt), inputs).reply.Over?
    ensures SomeFinish(New(session, prompt), inputs) && SomeIdle(New(session, prompt), inputs)
    ensures ConsumeAll(New(session, prompt), inputs).t.names.current != {}
  {
    FlagsHaveCauses(New(session, prompt), inputs);
    NewFits(session, prompt);
    ConsumeAllKeepsInv(New(session, prompt), inputs);
  }
}
