/**
 What every event keeps: what has been sent and stored only grows, the queue's
 counters are exact, and every delta came from an answer to this turn's prompt.
 */
module TrackerInvariant {
  import opened Base
  import opened Tracker

  // ---------------------------------------------------------------------------
  // Keys

  /** The message is what stands before the key's first separator. */
  lemma SeparatorEnds(m: string, key: string)
    requires NUL !in m && KeyOf(m, key)
    ensures |m| < |key| && key[|m|] == NUL && key[..|m|] == m && forall i | 0 <= i < |m| :: key[i] != NUL
  {
    assert forall i | 0 <= i < |m| :: key[i] == (m + [NUL])[i] == m[i];
    assert key[|m|] == (m + [NUL])[|m|];
  }

  /** A key belongs to one message only: identities contain no separator. */
  lemma KeyOwner(m: string, n: string, key: string)
    requires NUL !in m && NUL !in n && KeyOf(m, key) && KeyOf(n, key)
    ensures m == n
  {
    SeparatorEnds(m, key);
    SeparatorEnds(n, key);
    assert m == key[..|m|] && n == key[..|n|];
  }

  /** Different parts have different keys. */
  lemma PartKeyIsInjective(m: string, p: string, n: string, q: string)
    requires ValidId(m) && ValidId(n) && ValidId(p) && ValidId(q) && PartKey(m, p) == PartKey(n, q)
    ensures m == n && p == q
  {
    var key := PartKey(m, p);
    KeyOwner(m, n, key);
    assert p == key[|m| + 1..] && q == key[|n| + 1..];
  }

  // ---------------------------------------------------------------------------
  // Growth

  predicate PartGrows(a: Part, b: Part) {
    a.text <= b.text && a.kind == b.kind
  }

  predicate TextsGrow(x: Texts, y: Texts) {
    && (forall k <- x.parts :: k in y.parts && PartGrows(x.parts[k], y.parts[k]))
    && (forall k <- x.families :: k in y.families && y.families[k] == x.families[k])
    && (forall m <- x.fallback :: m in y.fallback && y.fallback[m] == x.fallback[m])
    && x.sent <= y.sent
    && (x.activity ==> y.activity)
  }

  lemma TextsGrowTransitively(x: Texts, y: Texts, z: Texts)
    requires TextsGrow(x, y) && TextsGrow(y, z)
    ensures TextsGrow(x, z)
  {
    forall k | k in x.parts ensures k in z.parts && PartGrows(x.parts[k], z.parts[k]) {
      assert PartGrows(x.parts[k], y.parts[k]) && PartGrows(y.parts[k], z.parts[k]);
    }
  }

  lemma SendGrows(x: Texts, m: string, f: Family, key: string, kind: Kind, text: string)
    ensures TextsGrow(x, Send(x, m, f, key, kind, text))
  {
  }

  lemma ExtendGrows(x: Texts, m: string, key: string, delta: string)
    requires key in x.parts && !Muted(x, m, key)
    ensures TextsGrow(x, Extend(x, m, key, delta))
  {
  }

  lemma GetPartGrows(x: Texts, key: string, kind: Option<Kind>)
    requires GetPart(x, key, kind).Some?
    ensures TextsGrow(x, GetPart(x, key, kind).value)
  {
  }

  lemma ClaimGrows(x: Texts, m: string, textId: string)
    ensures TextsGrow(x, Claim(x, m, textId))
  {
  }

  lemma EmitCompatGrows(x: Texts, m: string, textId: string, delta: string)
    ensures TextsGrow(x, EmitCompat(x, m, textId, delta))
  {
    var y, key := Claim(x, m, textId), PartKey(m, textId);
    ClaimGrows(x, m, textId);
    SendGrows(y, m, Compatibility, key, Text, delta);
    TextsGrowTransitively(x, y, Send(y, m, Compatibility, key, Text, delta));
  }

  lemma MergeGrows(x: Texts, m: string, key: string, text: string)
    requires key in x.parts && !Muted(x, m, key)
    ensures TextsGrow(x, Merge(x, m, key, text).x)
  {
    var had := x.parts[key].text;
    if had <= text && !(text <= had) {
      ExtendGrows(x, m, key, text[|had|..]);
    }
  }

  lemma DeliverGrows(x: Texts, m: string, p: Pending)
    ensures TextsGrow(x, Deliver(x, m, p).x)
  {
    match p
    case PendingDelta(key, delta) =>
      if !Muted(x, m, key) && GetPart(x, key, None).Some? {
        var y := GetPart(x, key, None).value;
        GetPartGrows(x, key, None);
        ExtendGrows(y, m, key, delta);
        TextsGrowTransitively(x, y, Extend(y, m, key, delta));
      }
    case PendingFull(key, kind, text) =>
      if !Muted(x, m, key) && GetPart(x, key, Some(kind)).Some? {
        var y := GetPart(x, key, Some(kind)).value;
        GetPartGrows(x, key, Some(kind));
        MergeGrows(y, m, key, text);
        TextsGrowTransitively(x, y, Merge(y, m, key, text).x);
      }
    case PendingCompat(textId, delta) => EmitCompatGrows(x, m, textId, delta);
  }

  lemma {:induction false} FlushGrows(x: Texts, m: string, ps: seq<Pending>)
    ensures TextsGrow(x, Flush(x, m, ps).x)
    decreases |ps|
  {
    if ps != [] {
      DeliverGrows(x, m, ps[0]);
      FlushGrows(Deliver(x, m, ps[0]).x, m, ps[1..]);
    }
  }

  predicate NamesGrow(n: Names, o: Names) {
    && n.current <= o.current
    && (n.prompt != "" ==> o.prompt == n.prompt)
    && (forall m <- n.roles :: m in o.roles && o.roles[m] == n.roles[m])
    && (forall m <- n.parents :: m in o.parents && o.parents[m] == n.parents[m])
  }

  predicate Grows(t: State, u: State) {
    && TextsGrow(t.texts, u.texts) && NamesGrow(t.names, u.names)
    && u.session == t.session && t.seen <= u.seen
    && (t.armed ==> u.armed) && (t.final ==> u.final) && (t.idle ==> u.idle)
  }

  lemma CheckedGrows(t: State, s: Said)
    requires TextsGrow(t.texts, s.x)
    ensures Grows(t, Checked(t, s).t)
  {
  }

  lemma OfferGrows(t: State, m: string, p: Pending)
    ensures Grows(t, Offer(t, m, p).t)
  {
    if m in t.names.current {
      DeliverGrows(t.texts, m, p);
      CheckedGrows(t, Deliver(t.texts, m, p));
    }
  }

  lemma TextEventGrows(t: State, body: Body)
    ensures Grows(t, TextEvent(t, body).t)
  {
    match TextOf(body)
    case Carried(m, p) => OfferGrows(t, m, p);
    case _ =>
  }

  lemma RegisterGrows(n: Names, info: Info)
    requires n.roles.Keys == n.parents.Keys && info.role.Some? && !Refused(n, info)
    ensures NamesGrow(n, Register(n, info)) && Register(n, info).roles.Keys == Register(n, info).parents.Keys
  {
  }

  lemma FlushAndClearGrows(t: State, m: string)
    ensures Grows(t, FlushAndClear(t, m).t)
  {
    FlushGrows(t.texts, m, Waiting(t.queue, m));
    CheckedGrows(t, Flush(t.texts, m, Waiting(t.queue, m)));
  }

  lemma RegisteredGrows(t: State, info: Info)
    requires t.names.roles.Keys == t.names.parents.Keys && info.role.Some? && !Refused(t.names, info)
    ensures Grows(t, Registered(t, info))
  {
    RegisterGrows(t.names, info);
  }

  lemma GrowsTransitively(t: State, u: State, v: State)
    requires Grows(t, u) && Grows(u, v)
    ensures Grows(t, v)
  {
    TextsGrowTransitively(t.texts, u.texts, v.texts);
  }

  lemma AdmitGrows(t: State, info: Info)
    ensures Grows(t, Admit(t, info).t)
  {
    var t1 := t.(final := t.final || info.finish.FinalFinish?);
    assert Grows(t, t1);
    FlushAndClearGrows(t1, info.id);
    GrowsTransitively(t, t1, FlushAndClear(t1, info.id).t);
  }

  lemma AnnounceGrows(t: State, info: Info)
    requires t.names.roles.Keys == t.names.parents.Keys
    ensures Grows(t, Announce(t, info).t)
  {
    if !Refused(t.names, info) && info.role.Some? {
      RegisteredGrows(t, info);
      AdmitGrows(Registered(t, info), info);
      GrowsTransitively(t, Registered(t, info), Admit(Registered(t, info), info).t);
    }
  }

  lemma ForwardGrows(t: State, name: string)
    ensures Grows(t, Forward(t, name))
  {
  }

  lemma IdleGrows(t: State)
    ensures Grows(t, ObserveIdle(t).t)
  {
  }

  lemma SignalGrows(t: State, body: Body)
    ensures Grows(t, Signal(t, body).t)
  {
    match body
    case Status(state) =>
      if state.Some? {
        ForwardGrows(t, state.value);
        IdleGrows(Forward(t, state.value));
        GrowsTransitively(t, Forward(t, state.value), ObserveIdle(Forward(t, state.value)).t);
      }
    case Idle => IdleGrows(t);
    case _ =>
  }

  lemma DispatchGrows(t: State, body: Body)
    requires t.names.roles.Keys == t.names.parents.Keys
    ensures Grows(t, Dispatch(t, body).t)
  {
    match body
    case MessageUpdated(info) => if info.Some? { AnnounceGrows(t, info.value); }
    case PartDelta(_, _, _, _) | PartUpdated(_) | TextDelta(_, _, _) => TextEventGrows(t, body);
    case _ => SignalGrows(t, body);
  }

  lemma ConsumeGrows(t: State, dispatched: bool, r: Record)
    requires t.names.roles.Keys == t.names.parents.Keys
    ensures Grows(t, Consume(t, dispatched, r).t)
  {
    var t0 := t.(armed := t.armed || dispatched);
    if !Undecodable(r) && Accepted(t0, r) && |t0.seen| < MAX_EVENTS {
      DispatchGrows(t0.(seen := t0.seen + {r.id}), r.body);
    }
  }

  // ---------------------------------------------------------------------------
  // What has been sent

  /** The deltas the message-part family sent for a key, in order. */
  function PartText(sent: seq<Sent>, key: string): string {
    if sent == [] then ""
    else PartText(sent[..|sent| - 1], key) + Contribution(sent[|sent| - 1], key)
  }

  function Contribution(e: Sent, key: string): string {
    if e.Delta? && e.family.MessagePart? && e.key == key then e.text else ""
  }

  function StoredText(x: Texts, key: string): string {
    if key in x.parts then x.parts[key].text else ""
  }

  /** The delta comes from a current assistant, on the stream of its part, from the one family its key has. */
  predicate SentFits(x: Texts, current: set<string>, e: Sent) {
    e.Delta? ==>
      && e.message in current
      && (e.family.MessagePart? ==> KeyOf(e.message, e.key) && e.key in x.parts && x.parts[e.key].kind == e.kind)
      && (e.message !in x.fallback ==> e.key in x.families && x.families[e.key] == e.family)
  }

  ghost predicate TextsFit(x: Texts, current: set<string>) {
    && (forall key :: PartText(x.sent, key) == StoredText(x, key))
    && (forall e | e in x.sent :: SentFits(x, current, e))
    && (x.activity ==> current != {})
    && |x.parts| <= MAX_PARTS
  }

  lemma SentFitsStays(x: Texts, y: Texts, current: set<string>, e: Sent)
    requires TextsGrow(x, y) && SentFits(x, current, e)
    ensures SentFits(y, current, e)
  {
  }

  lemma SilentFits(x: Texts, y: Texts, current: set<string>)
    requires TextsFit(x, current) && TextsGrow(x, y) && y.sent == x.sent && (y.activity ==> current != {}) && |y.parts| <= MAX_PARTS
    requires forall key :: StoredText(y, key) == StoredText(x, key)
    ensures TextsFit(y, current)
  {
    forall e | e in y.sent ensures SentFits(y, current, e) {
      SentFitsStays(x, y, current, e);
    }
  }

  lemma AppendedFits(x: Texts, y: Texts, current: set<string>, e: Sent)
    requires TextsFit(x, current) && TextsGrow(x, y) && y.sent == x.sent + [e] && (y.activity ==> current != {}) && |y.parts| <= MAX_PARTS
    requires SentFits(y, current, e) && forall key :: StoredText(y, key) == StoredText(x, key) + Contribution(e, key)
    ensures TextsFit(y, current)
  {
    forall d | d in y.sent ensures SentFits(y, current, d) {
      if d in x.sent {
        SentFitsStays(x, y, current, d);
      }
    }
    forall key ensures PartText(y.sent, key) == StoredText(y, key) {
      assert y.sent[..|y.sent| - 1] == x.sent;
    }
  }

  predicate PendingFits(m: string, p: Pending) {
    ValidId(m) && (p.PendingDelta? || p.PendingFull? ==> KeyOf(m, p.key))
  }

  lemma ExtendFits(x: Texts, current: set<string>, m: string, key: string, delta: string)
    requires TextsFit(x, current) && m in current && key in x.parts && !Muted(x, m, key) && KeyOf(m, key)
    ensures TextsFit(Extend(x, m, key, delta), current)
  {
    ExtendGrows(x, m, key, delta);
    AppendedFits(x, Extend(x, m, key, delta), current, Delta(m, MessagePart, key, x.parts[key].kind, delta));
  }

  lemma GetPartFits(x: Texts, current: set<string>, key: string, kind: Option<Kind>)
    requires TextsFit(x, current) && GetPart(x, key, kind).Some?
    ensures TextsFit(GetPart(x, key, kind).value, current)
  {
    GetPartGrows(x, key, kind);
    SilentFits(x, GetPart(x, key, kind).value, current);
  }

  lemma ClaimFits(x: Texts, current: set<string>, m: string, textId: string)
    requires TextsFit(x, current)
    ensures TextsFit(Claim(x, m, textId), current)
  {
    ClaimGrows(x, m, textId);
    SilentFits(x, Claim(x, m, textId), current);
  }

  lemma SpeakFits(x: Texts, current: set<string>, m: string, key: string, delta: string)
    requires TextsFit(x, current) && m in current && Claimed(x, m, key)
    ensures TextsFit(Send(x, m, Compatibility, key, Text, delta), current)
  {
    SendGrows(x, m, Compatibility, key, Text, delta);
    AppendedFits(x, Send(x, m, Compatibility, key, Text, delta), current, Delta(m, Compatibility, key, Text, delta));
  }

  lemma EmitCompatFits(x: Texts, current: set<string>, m: string, textId: string, delta: string)
    requires TextsFit(x, current) && m in current
    ensures TextsFit(EmitCompat(x, m, textId, delta), current)
  {
    var y, key := Claim(x, m, textId), PartKey(m, textId);
    ClaimFits(x, current, m, textId);
    if Claimed(y, m, key) {
      SpeakFits(y, current, m, key, delta);
    }
  }

  lemma DeliverFits(x: Texts, current: set<string>, m: string, p: Pending)
    requires TextsFit(x, current) && m in current && PendingFits(m, p)
    ensures TextsFit(Deliver(x, m, p).x, current)
  {
    match p
    case PendingDelta(key, delta) =>
      if !Muted(x, m, key) && GetPart(x, key, None).Some? {
        GetPartFits(x, current, key, None);
        ExtendFits(GetPart(x, key, None).value, current, m, key, delta);
      }
    case PendingFull(key, kind, text) =>
      if !Muted(x, m, key) && GetPart(x, key, Some(kind)).Some? {
        GetPartFits(x, current, key, Some(kind));
        MergeFits(GetPart(x, key, Some(kind)).value, current, m, key, text);
      }
    case PendingCompat(textId, delta) => EmitCompatFits(x, current, m, textId, delta);
  }

  lemma MergeFits(x: Texts, current: set<string>, m: string, key: string, text: string)
    requires TextsFit(x, current) && m in current && key in x.parts && !Muted(x, m, key) && KeyOf(m, key)
    ensures TextsFit(Merge(x, m, key, text).x, current)
  {
    var had := x.parts[key].text;
    if had <= text && !(text <= had) {
      ExtendFits(x, current, m, key, text[|had|..]);
    }
  }

  lemma {:induction false} FlushFits(x: Texts, current: set<string>, m: string, ps: seq<Pending>)
    requires TextsFit(x, current) && m in current && forall p | p in ps :: PendingFits(m, p)
    ensures TextsFit(Flush(x, m, ps).x, current)
    decreases |ps|
  {
    if ps != [] {
      DeliverFits(x, current, m, ps[0]);
      if Deliver(x, m, ps[0]).ok {
        FlushFits(Deliver(x, m, ps[0]).x, current, m, ps[1..]);
      }
    }
  }

  // ---------------------------------------------------------------------------
  // The queue's totals

  ghost function Sum(m: map<string, nat>): nat {
    if m == map[] then 0 else var k :| k in m; m[k] + Sum(m - {k})
  }

  lemma {:induction false} SumRemoves(m: map<string, nat>, k: string)
    requires k in m
    ensures Sum(m) == m[k] + Sum(m - {k})
  {
    var j :| j in m && Sum(m) == m[j] + Sum(m - {j});
    if j != k {
      SumRemoves(m - {j}, k);
      SumRemoves(m - {k}, j);
      assert m - {j} - {k} == m - {k} - {j};
    }
  }

  function Counts(q: map<string, seq<Pending>>): map<string, nat> {
    map m | m in q :: |q[m]|
  }

  function Sizes(q: map<string, seq<Pending>>): map<string, nat> {
    map m | m in q :: Bytes(q[m])
  }

  /** The counters are the true totals, and within the limits. */
  ghost predicate QueueFits(q: Queue) {
    && q.records == Sum(Counts(q.pending)) <= MAX_PENDING
    && q.bytes == Sum(Sizes(q.pending)) <= MAX_PENDING_BYTES
  }

  lemma TotalsWithout(q: Queue, m: string)
    ensures Sum(Counts(q.pending)) == |Waiting(q, m)| + Sum(Counts(q.pending - {m}))
    ensures Sum(Sizes(q.pending)) == Bytes(Waiting(q, m)) + Sum(Sizes(q.pending - {m}))
  {
    var rest := q.pending - {m};
    if m in q.pending {
      SumRemoves(Counts(q.pending), m);
      SumRemoves(Sizes(q.pending), m);
    }
    assert Counts(q.pending) - {m} == Counts(rest);
    assert Sizes(q.pending) - {m} == Sizes(rest);
    if m !in q.pending {
      assert rest == q.pending;
    }
  }

  lemma ClearFits(q: Queue, m: string)
    requires QueueFits(q)
    ensures QueueFits(ClearPending(q, m))
  {
    TotalsWithout(q, m);
  }

  lemma EnqueueFits(q: Queue, m: string, p: Pending)
    requires QueueFits(q) && Fits(q, p)
    ensures QueueFits(Enqueue(q, m, p))
  {
    var r := Enqueue(q, m, p);
    TotalsWithout(q, m);
    TotalsWithout(r, m);
    assert r.pending - {m} == q.pending - {m};
    assert Waiting(r, m)[..|Waiting(r, m)| - 1] == Waiting(q, m);
  }

  /** Only unknown messages wait, and each with text of its own. */
  predicate QueueBelongs(q: Queue, n: Names) {
    forall m <- q.pending :: m !in n.roles && forall p | p in q.pending[m] :: PendingFits(m, p)
  }

  lemma EnqueueBelongs(q: Queue, n: Names, m: string, p: Pending)
    requires QueueBelongs(q, n) && m !in n.roles && PendingFits(m, p)
    ensures QueueBelongs(Enqueue(q, m, p), n)
  {
  }

  // ---------------------------------------------------------------------------
  // The invariant

  /** Current assistants are assistants whose parent is the prompt. */
  predicate NamesFit(n: Names) {
    && n.roles.Keys == n.parents.Keys && |n.roles| <= MAX_MESSAGES
    && forall m <- n.current :: m in n.roles && n.roles[m] == Assistant && n.prompt != "" && n.parents[m] == n.prompt
  }

  ghost predicate Sound(t: State) {
    && NamesFit(t.names) && QueueFits(t.queue) && TextsFit(t.texts, t.names.current)
    && (t.idle || t.final ==> t.names.current != {})
  }

  /** A failed announcement may leave its queue behind; the turn ends there. */
  ghost predicate Inv(t: State) {
    Sound(t) && QueueBelongs(t.queue, t.names)
  }

  lemma NewFits(session: string, prompt: string)
    ensures Inv(New(session, prompt))
  {
  }

  lemma TextOfFits(body: Body)
    ensures TextOf(body).Carried? ==> PendingFits(TextOf(body).message, TextOf(body).p)
  {
  }

  lemma OfferKeepsInv(t: State, m: string, p: Pending)
    requires Inv(t) && PendingFits(m, p)
    ensures Inv(Offer(t, m, p).t)
  {
    if m in t.names.current {
      DeliverFits(t.texts, t.names.current, m, p);
    } else if m !in t.names.roles && Fits(t.queue, p) {
      EnqueueFits(t.queue, m, p);
      EnqueueBelongs(t.queue, t.names, m, p);
    }
  }

  lemma MoreCurrentFits(x: Texts, n: set<string>, current: set<string>, activity: bool)
    requires TextsFit(x, n) && n <= current && (activity ==> current != {})
    ensures TextsFit(x.(activity := x.activity || activity), current)
  {
    var y := x.(activity := x.activity || activity);
    forall e | e in y.sent ensures SentFits(y, current, e) {
      assert SentFits(x, n, e);
    }
    assert x.activity ==> n != {};
  }

  lemma RegisterFits(n: Names, info: Info)
    requires NamesFit(n) && info.role.Some? && !Refused(n, info)
    ensures NamesFit(Register(n, info))
  {
  }

  lemma ClearBelongs(q: Queue, n: Names, info: Info)
    requires QueueBelongs(q, n) && info.role.Some?
    ensures QueueBelongs(ClearPending(q, info.id), Register(n, info))
  {
  }

  lemma RegisteredIsSound(t: State, info: Info)
    requires Sound(t) && info.role.Some? && !Refused(t.names, info)
    ensures Sound(Registered(t, info))
  {
    RegisterFits(t.names, info);
    MoreCurrentFits(t.texts, t.names.current, Register(t.names, info).current, Answers(t.names, info));
  }

  lemma FlushAndClearIsSound(t: State, m: string)
    requires Sound(t) && m in t.names.current && forall p | p in Waiting(t.queue, m) :: PendingFits(m, p)
    ensures Sound(FlushAndClear(t, m).t)
  {
    FlushFits(t.texts, t.names.current, m, Waiting(t.queue, m));
    ClearFits(t.queue, m);
  }

  lemma FlushAndClearKeepsInv(t: State, m: string)
    requires Sound(t) && m in t.names.current && forall p | p in Waiting(t.queue, m) :: PendingFits(m, p)
    requires QueueBelongs(ClearPending(t.queue, m), t.names)
    ensures var d := FlushAndClear(t, m); Sound(d.t) && (!d.reply.Fail? ==> Inv(d.t))
  {
    FlushAndClearIsSound(t, m);
  }

  lemma AnnounceCurrentKeepsInv(t: State, info: Info)
    requires Sound(t) && info.id in t.names.current && forall p | p in Waiting(t.queue, info.id) :: PendingFits(info.id, p)
    requires QueueBelongs(ClearPending(t.queue, info.id), t.names)
    ensures var d := AnnounceCurrent(t, info); Sound(d.t) && (!d.reply.Fail? ==> Inv(d.t))
  {
    FlushAndClearKeepsInv(t.(final := t.final || info.finish.FinalFinish?), info.id);
  }

  lemma AnnounceKeepsInv(t: State, info: Info)
    requires Inv(t)
    ensures var d := Announce(t, info); Sound(d.t) && (!d.reply.Fail? ==> Inv(d.t))
  {
    if !Refused(t.names, info) && info.role.Some? {
      RegisteredIsSound(t, info);
      ClearBelongs(t.queue, t.names, info);
      var t1 := Registered(t, info);
      if info.id in t1.names.current {
        AnnounceCurrentKeepsInv(t1, info);
      } else {
        ClearFits(t.queue, info.id);
      }
    }
  }

  lemma ForwardFits(x: Texts, current: set<string>, name: string)
    requires TextsFit(x, current)
    ensures TextsFit(x.(sent := x.sent + [ProviderState(name)]), current)
  {
    AppendedFits(x, x.(sent := x.sent + [ProviderState(name)]), current, ProviderState(name));
  }

  lemma SignalKeepsInv(t: State, body: Body)
    requires Inv(t)
    ensures Inv(Signal(t, body).t)
  {
    match body
    case Status(state) => if state.Some? { ForwardFits(t.texts, t.names.current, state.value); }
    case Other(tool, message) =>
      MoreCurrentFits(t.texts, t.names.current, t.names.current, tool && message in t.names.current);
    case _ =>
  }

  lemma DispatchKeepsInv(t: State, body: Body)
    requires Inv(t)
    ensures var d := Dispatch(t, body); Sound(d.t) && (!d.reply.Fail? ==> Inv(d.t))
  {
    match body
    case MessageUpdated(info) => if info.Some? { AnnounceKeepsInv(t, info.value); }
    case PartDelta(_, _, _, _) | PartUpdated(_) | TextDelta(_, _, _) =>
      TextOfFits(body);
      if TextOf(body).Carried? {
        OfferKeepsInv(t, TextOf(body).message, TextOf(body).p);
      }
    case _ => SignalKeepsInv(t, body);
  }

  lemma ConsumeKeepsInv(t: State, dispatched: bool, r: Record)
    requires Inv(t)
    ensures var d := Consume(t, dispatched, r); Sound(d.t) && (!d.reply.Fail? ==> Inv(d.t))
  {
    var t0 := t.(armed := t.armed || dispatched);
    if !Undecodable(r) && Accepted(t0, r) && |t0.seen| < MAX_EVENTS {
      DispatchKeepsInv(t0.(seen := t0.seen + {r.id}), r.body);
    }
  }

  lemma {:induction false} ConsumeAllKeepsInv(t: State, inputs: seq<Input>)
    requires Inv(t)
    ensures var d := ConsumeAll(t, inputs); Sound(d.t) && (!d.reply.Fail? ==> Inv(d.t)) && Grows(t, d.t)
    decreases |inputs|
  {
    if inputs != [] {
      var d := Consume(t, inputs[0].dispatched, inputs[0].r);
      ConsumeKeepsInv(t, inputs[0].dispatched, inputs[0].r);
      ConsumeGrows(t, inputs[0].dispatched, inputs[0].r);
      if d.reply.Next? {
        ConsumeAllKeepsInv(d.t, inputs[1..]);
        GrowsTransitively(t, d.t, ConsumeAll(d.t, inputs[1..]).t);
      }
    }
  }
}
