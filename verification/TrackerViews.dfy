/**
 Delivering text to a message reads and writes that message's own share of the
 state only, apart from the limit on the number of parts.
 */
module TrackerViews {
  import opened Base
  import opened Tracker
  import opened TrackerInvariant

  function Only<V>(f: map<string, V>, m: string): map<string, V> {
    map k | k in f && k == m :: f[k]
  }

  function Keyed<V>(f: map<string, V>, m: string): map<string, V> {
    map k | k in f && KeyOf(m, k) :: f[k]
  }

  /** The deltas of a message, in the order they were sent. */
  function OfMessage(sent: seq<Sent>, m: string): seq<Sent> {
    if sent == [] then []
    else
      var e := sent[|sent| - 1];
      OfMessage(sent[..|sent| - 1], m) + if e.Delta? && e.message == m then [e] else []
  }

  /** The share of the state that belongs to a message. */
  function View(x: Texts, m: string): Texts {
    Texts(true, Only(x.first, m), Only(x.fallback, m), Keyed(x.families, m), Keyed(x.parts, m), OfMessage(x.sent, m))
  }

  lemma SentAppends(sent: seq<Sent>, e: Sent, m: string)
    ensures OfMessage(sent + [e], m) == OfMessage(sent, m) + if e.Delta? && e.message == m then [e] else []
  {
    assert (sent + [e])[..|sent + [e]| - 1] == sent;
  }

  lemma KeyedUpdate<V>(f: map<string, V>, m: string, k: string, v: V)
    ensures Keyed(f[k := v], m) == if KeyOf(m, k) then Keyed(f, m)[k := v] else Keyed(f, m)
  {
  }

  lemma OnlyUpdate<V>(f: map<string, V>, m: string, k: string, v: V)
    ensures Only(f[k := v], m) == if k == m then Only(f, m)[k := v] else Only(f, m)
  {
  }

  lemma KeyedIsSmaller<V>(f: map<string, V>, m: string)
    ensures |Keyed(f, m)| <= |f|
  {
    assert Keyed(f, m).Keys <= f.Keys;
    SubsetSize(Keyed(f, m).Keys, f.Keys);
    assert |Keyed(f, m).Keys| == |Keyed(f, m)| && |f.Keys| == |f|;
  }

  lemma SubsetSize(a: set<string>, b: set<string>)
    requires a <= b
    ensures |a| <= |b|
  {
    assert b == a + (b - a);
  }

  // ---------------------------------------------------------------------------
  // The message's own view

  lemma SendViews(x: Texts, m: string, f: Family, key: string, kind: Kind, text: string)
    ensures View(Send(x, m, f, key, kind, text), m) == Send(View(x, m), m, f, key, kind, text)
  {
    SentAppends(x.sent, Delta(m, f, key, kind, text), m);
    OnlyUpdate(x.first, m, m, f);
  }

  lemma ExtendViews(x: Texts, m: string, key: string, delta: string)
    requires key in x.parts && KeyOf(m, key)
    ensures View(Extend(x, m, key, delta), m) == Extend(View(x, m), m, key, delta)
  {
    var part := x.parts[key];
    var y := x.(families := x.families[key := MessagePart], parts := x.parts[key := part.(text := part.text + delta)]);
    SendViews(y, m, MessagePart, key, part.kind, delta);
    KeyedUpdate(x.families, m, key, MessagePart);
    KeyedUpdate(x.parts, m, key, part.(text := part.text + delta));
  }

  lemma GetPartViews(x: Texts, m: string, key: string, kind: Option<Kind>)
    requires KeyOf(m, key) && GetPart(x, key, kind).Some?
    ensures GetPart(View(x, m), key, kind) == Some(View(GetPart(x, key, kind).value, m))
  {
    KeyedIsSmaller(x.parts, m);
    KeyedUpdate(x.parts, m, key, Part("", if kind.Some? then kind.value else Text));
  }

  lemma MutedViews(x: Texts, m: string, key: string)
    requires KeyOf(m, key)
    ensures Muted(View(x, m), m, key) == Muted(x, m, key)
  {
  }

  lemma MergeViews(x: Texts, m: string, key: string, text: string)
    requires key in x.parts && KeyOf(m, key)
    ensures Merge(View(x, m), m, key, text) == Said(View(Merge(x, m, key, text).x, m), Merge(x, m, key, text).ok)
  {
    var had := x.parts[key].text;
    if had <= text && !(text <= had) {
      ExtendViews(x, m, key, text[|had|..]);
    }
  }

  lemma ClaimViews(x: Texts, m: string, textId: string)
    requires m != ""
    ensures Claim(View(x, m), m, textId) == View(Claim(x, m, textId), m)
  {
    if textId == "" {
      OnlyUpdate(x.fallback, m, m, if m in x.first then x.first[m] else Compatibility);
    } else {
      KeyedUpdate(x.families, m, PartKey(m, textId), Compatibility);
    }
  }

  lemma ClaimedViews(x: Texts, m: string, textId: string)
    requires m != "" && (textId == "" ==> m in x.fallback)
    ensures Claimed(View(x, m), m, PartKey(m, textId)) == Claimed(x, m, PartKey(m, textId))
  {
  }

  lemma EmitCompatViews(x: Texts, m: string, textId: string, delta: string)
    requires m != ""
    ensures EmitCompat(View(x, m), m, textId, delta) == View(EmitCompat(x, m, textId, delta), m)
  {
    ClaimViews(x, m, textId);
    ClaimedViews(Claim(x, m, textId), m, textId);
    SendViews(Claim(x, m, textId), m, Compatibility, PartKey(m, textId), Text, delta);
  }

  /** What a delivery does to the message's view is what it does to the state. */
  lemma DeliverViews(x: Texts, m: string, p: Pending)
    requires PendingFits(m, p) && Deliver(x, m, p).ok
    ensures Deliver(View(x, m), m, p) == Said(View(Deliver(x, m, p).x, m), true)
  {
    match p
    case PendingDelta(key, delta) =>
      MutedViews(x, m, key);
      if !Muted(x, m, key) {
        GetPartViews(x, m, key, None);
        ExtendViews(GetPart(x, key, None).value, m, key, delta);
      }
    case PendingFull(key, kind, text) =>
      MutedViews(x, m, key);
      if !Muted(x, m, key) {
        GetPartViews(x, m, key, Some(kind));
        MergeViews(GetPart(x, key, Some(kind)).value, m, key, text);
      }
    case PendingCompat(textId, delta) => EmitCompatViews(x, m, textId, delta);
  }

  // ---------------------------------------------------------------------------
  // Everybody else's view

  lemma OtherKey(m: string, n: string, key: string)
    requires m != n && NUL !in m && NUL !in n && KeyOf(m, key)
    ensures !KeyOf(n, key)
  {
    if KeyOf(n, key) {
      KeyOwner(m, n, key);
    }
  }

  lemma SendElsewhere(x: Texts, m: string, n: string, f: Family, key: string, kind: Kind, text: string)
    requires m != n
    ensures View(Send(x, m, f, key, kind, text), n) == View(x, n)
  {
    SentAppends(x.sent, Delta(m, f, key, kind, text), n);
    OnlyUpdate(x.first, n, m, f);
  }

  lemma ExtendElsewhere(x: Texts, m: string, n: string, key: string, delta: string)
    requires key in x.parts && !KeyOf(n, key) && m != n
    ensures View(Extend(x, m, key, delta), n) == View(x, n)
  {
    var part := x.parts[key];
    var y := x.(families := x.families[key := MessagePart], parts := x.parts[key := part.(text := part.text + delta)]);
    SendElsewhere(y, m, n, MessagePart, key, part.kind, delta);
    KeyedUpdate(x.families, n, key, MessagePart);
    KeyedUpdate(x.parts, n, key, part.(text := part.text + delta));
  }

  lemma GetPartElsewhere(x: Texts, n: string, key: string, kind: Option<Kind>)
    requires !KeyOf(n, key) && GetPart(x, key, kind).Some?
    ensures View(GetPart(x, key, kind).value, n) == View(x, n)
  {
    KeyedUpdate(x.parts, n, key, Part("", if kind.Some? then kind.value else Text));
  }

  lemma MergeElsewhere(x: Texts, m: string, n: string, key: string, text: string)
    requires key in x.parts && !KeyOf(n, key) && m != n
    ensures View(Merge(x, m, key, text).x, n) == View(x, n)
  {
    var had := x.parts[key].text;
    if had <= text && !(text <= had) {
      ExtendElsewhere(x, m, n, key, text[|had|..]);
    }
  }

  lemma EmitCompatElsewhere(x: Texts, m: string, n: string, textId: string, delta: string)
    requires m != n && ValidId(m) && ValidId(n)
    ensures View(EmitCompat(x, m, textId, delta), n) == View(x, n)
  {
    var key := PartKey(m, textId);
    if textId == "" {
      OnlyUpdate(x.fallback, n, m, if m in x.first then x.first[m] else Compatibility);
    } else {
      OtherKey(m, n, key);
      KeyedUpdate(x.families, n, key, Compatibility);
    }
    assert View(Claim(x, m, textId), n) == View(x, n);
    SendElsewhere(Claim(x, m, textId), m, n, Compatibility, key, Text, delta);
  }

  lemma DeliverElsewhere(x: Texts, m: string, n: string, p: Pending)
    requires PendingFits(m, p) && ValidId(n) && m != n
    ensures View(Deliver(x, m, p).x, n) == View(x, n)
  {
    match p
    case PendingDelta(key, delta) =>
      OtherKey(m, n, key);
      if !Muted(x, m, key) && GetPart(x, key, None).Some? {
        GetPartElsewhere(x, n, key, None);
        ExtendElsewhere(GetPart(x, key, None).value, m, n, key, delta);
      }
    case PendingFull(key, kind, text) =>
      OtherKey(m, n, key);
      if !Muted(x, m, key) && GetPart(x, key, Some(kind)).Some? {
        GetPartElsewhere(x, n, key, Some(kind));
        MergeElsewhere(GetPart(x, key, Some(kind)).value, m, n, key, text);
      }
    case PendingCompat(textId, delta) => EmitCompatElsewhere(x, m, n, textId, delta);
  }

  // ---------------------------------------------------------------------------
  // From a view back to the state: only the number of parts can get in the way

  lemma GetPartFromView(x: Texts, m: string, key: string, kind: Option<Kind>, bound: set<string>)
    requires KeyOf(m, key) && GetPart(View(x, m), key, kind).Some?
    requires x.parts.Keys <= bound && key in bound && |bound| <= MAX_PARTS
    ensures GetPart(x, key, kind).Some? && GetPart(x, key, kind).value.parts.Keys <= bound
  {
    if key !in x.parts {
      SubsetSize(x.parts.Keys + {key}, bound);
      assert |x.parts.Keys + {key}| == |x.parts| + 1;
    }
  }

  lemma ExtendKeys(x: Texts, m: string, key: string, delta: string)
    requires key in x.parts
    ensures Extend(x, m, key, delta).parts.Keys == x.parts.Keys
  {
  }

  lemma MergeKeys(x: Texts, m: string, key: string, text: string)
    requires key in x.parts
    ensures Merge(x, m, key, text).x.parts.Keys == x.parts.Keys
  {
    var had := x.parts[key].text;
    if had <= text && !(text <= had) {
      ExtendKeys(x, m, key, text[|had|..]);
    }
  }

  lemma GetPartKeys(x: Texts, key: string, kind: Option<Kind>)
    requires GetPart(x, key, kind).Some?
    ensures GetPart(x, key, kind).value.parts.Keys == x.parts.Keys + {key}
  {
  }

  lemma EmitCompatKeys(x: Texts, m: string, textId: string, delta: string)
    ensures EmitCompat(x, m, textId, delta).parts == x.parts
  {
  }

  /** The key under which a delivery looks up a part, if it does. */
  predicate Touches(x: Texts, m: string, p: Pending) {
    (p.PendingDelta? || p.PendingFull?) && !Muted(x, m, p.key)
  }

  lemma DeliverKeys(x: Texts, m: string, p: Pending)
    requires Deliver(x, m, p).ok
    ensures Deliver(x, m, p).x.parts.Keys == x.parts.Keys + if Touches(x, m, p) then {p.key} else {}
  {
    match p
    case PendingDelta(key, delta) =>
      if !Muted(x, m, key) {
        GetPartKeys(x, key, None);
        ExtendKeys(GetPart(x, key, None).value, m, key, delta);
      }
    case PendingFull(key, kind, text) =>
      if !Muted(x, m, key) {
        GetPartKeys(x, key, Some(kind));
        MergeKeys(GetPart(x, key, Some(kind)).value, m, key, text);
      }
    case PendingCompat(textId, delta) => EmitCompatKeys(x, m, textId, delta);
  }

  lemma FullFromView(x: Texts, m: string, key: string, kind: Kind, text: string)
    requires KeyOf(m, key) && !Muted(x, m, key) && EmitFull(View(x, m), m, key, kind, text).ok && GetPart(x, key, Some(kind)).Some?
    ensures EmitFull(x, m, key, kind, text).ok
  {
    MutedViews(x, m, key);
    GetPartViews(x, m, key, Some(kind));
    MergeViews(GetPart(x, key, Some(kind)).value, m, key, text);
  }

  lemma DeliverFromView(x: Texts, m: string, p: Pending, bound: set<string>)
    requires PendingFits(m, p) && Deliver(View(x, m), m, p).ok && |bound| <= MAX_PARTS
    requires x.parts.Keys <= bound && Deliver(View(x, m), m, p).x.parts.Keys <= bound
    ensures Deliver(x, m, p).ok && Deliver(x, m, p).x.parts.Keys <= bound
  {
    DeliverKeys(View(x, m), m, p);
    if !p.PendingCompat? {
      MutedViews(x, m, p.key);
      if !Muted(x, m, p.key) {
        var kind := if p.PendingFull? then Some(p.kind) else None;
        GetPartFromView(x, m, p.key, kind, bound);
        if p.PendingFull? {
          FullFromView(x, m, p.key, p.kind, p.text);
        }
      }
    }
    DeliverKeys(x, m, p);
  }

  // ---------------------------------------------------------------------------
  // Whole queues

  lemma {:induction false} FlushViews(x: Texts, m: string, ps: seq<Pending>)
    requires (forall p | p in ps :: PendingFits(m, p)) && Flush(x, m, ps).ok
    ensures Flush(View(x, m), m, ps) == Said(View(Flush(x, m, ps).x, m), true)
    decreases |ps|
  {
    if ps != [] {
      DeliverViews(x, m, ps[0]);
      FlushViews(Deliver(x, m, ps[0]).x, m, ps[1..]);
    }
  }

  lemma {:induction false} FlushElsewhere(x: Texts, m: string, n: string, ps: seq<Pending>)
    requires (forall p | p in ps :: PendingFits(m, p)) && ValidId(n) && m != n
    ensures View(Flush(x, m, ps).x, n) == View(x, n)
    decreases |ps|
  {
    if ps != [] {
      DeliverElsewhere(x, m, n, ps[0]);
      if Deliver(x, m, ps[0]).ok {
        FlushElsewhere(Deliver(x, m, ps[0]).x, m, n, ps[1..]);
      }
    }
  }

  lemma {:induction false} FlushKeys(x: Texts, m: string, ps: seq<Pending>)
    requires Flush(x, m, ps).ok
    ensures x.parts.Keys <= Flush(x, m, ps).x.parts.Keys
    decreases |ps|
  {
    if ps != [] {
      DeliverKeys(x, m, ps[0]);
      FlushKeys(Deliver(x, m, ps[0]).x, m, ps[1..]);
    }
  }

  lemma {:induction false} FlushFromView(x: Texts, m: string, ps: seq<Pending>, bound: set<string>)
    requires (forall p | p in ps :: PendingFits(m, p)) && Flush(View(x, m), m, ps).ok && |bound| <= MAX_PARTS
    requires x.parts.Keys <= bound && Flush(View(x, m), m, ps).x.parts.Keys <= bound
    ensures Flush(x, m, ps).ok && Flush(x, m, ps).x.parts.Keys <= bound
    decreases |ps|
  {
    if ps != [] {
      var v := Deliver(View(x, m), m, ps[0]);
      FlushKeys(v.x, m, ps[1..]);
      DeliverFromView(x, m, ps[0], bound);
      DeliverViews(x, m, ps[0]);
      FlushFromView(Deliver(x, m, ps[0]).x, m, ps[1..], bound);
    }
  }

  /** A queue that grows at its end is flushed by one more delivery. */
  lemma {:induction false} FlushAppends(x: Texts, m: string, ps: seq<Pending>, p: Pending)
    requires Flush(x, m, ps).ok
    ensures Flush(x, m, ps + [p]) == Deliver(Flush(x, m, ps).x, m, p)
    decreases |ps|
  {
    if ps == [] {
      assert (ps + [p])[1..] == [] && (ps + [p])[0] == p;
    } else {
      assert (ps + [p])[1..] == ps[1..] + [p] && (ps + [p])[0] == ps[0];
      FlushAppends(Deliver(x, m, ps[0]).x, m, ps[1..], p);
    }
  }

  /** Flushing a part of a queue that can be flushed goes through, and makes fewer parts. */
  lemma {:induction false} FlushPrefix(x: Texts, m: string, ps: seq<Pending>, qs: seq<Pending>)
    requires Flush(x, m, qs).ok && ps <= qs
    ensures Flush(x, m, ps).ok && Flush(x, m, ps).x.parts.Keys <= Flush(x, m, qs).x.parts.Keys
    decreases |qs|
  {
    if ps == [] {
      FlushKeys(x, m, qs);
    } else {
      assert ps[0] == qs[0] && ps[1..] <= qs[1..];
      FlushPrefix(Deliver(x, m, ps[0]).x, m, ps[1..], qs[1..]);
    }
  }

  // ---------------------------------------------------------------------------
  // Two states with the same view

  /** New parts are parts of the message. */
  lemma DeliveredKeys(x: Texts, m: string, p: Pending)
    requires PendingFits(m, p) && Deliver(x, m, p).ok
    ensures Deliver(x, m, p).x.parts.Keys == x.parts.Keys + Keyed(Deliver(x, m, p).x.parts, m).Keys
  {
    DeliverKeys(x, m, p);
  }

  lemma {:induction false} FlushedKeys(x: Texts, m: string, ps: seq<Pending>)
    requires (forall p | p in ps :: PendingFits(m, p)) && Flush(x, m, ps).ok
    ensures Flush(x, m, ps).x.parts.Keys == x.parts.Keys + Keyed(Flush(x, m, ps).x.parts, m).Keys
    decreases |ps|
  {
    if ps != [] {
      DeliveredKeys(x, m, ps[0]);
      FlushKeys(Deliver(x, m, ps[0]).x, m, ps[1..]);
      FlushedKeys(Deliver(x, m, ps[0]).x, m, ps[1..]);
    }
  }

  /** A delivery that one state takes is taken by any other in which the message has the same view, given room for parts. */
  lemma SameDelivery(x: Texts, y: Texts, m: string, p: Pending, bound: set<string>)
    requires View(x, m) == View(y, m) && PendingFits(m, p) && Deliver(x, m, p).ok && |bound| <= MAX_PARTS
    requires y.parts.Keys <= bound && Keyed(Deliver(x, m, p).x.parts, m).Keys <= bound
    ensures Deliver(y, m, p).ok && View(Deliver(x, m, p).x, m) == View(Deliver(y, m, p).x, m)
  {
    DeliverViews(x, m, p);
    DeliverFromView(y, m, p, bound);
    DeliverViews(y, m, p);
  }

  lemma SameFlush(x: Texts, y: Texts, m: string, ps: seq<Pending>, bound: set<string>)
    requires View(x, m) == View(y, m) && (forall p | p in ps :: PendingFits(m, p)) && Flush(x, m, ps).ok && |bound| <= MAX_PARTS
    requires y.parts.Keys <= bound && Keyed(Flush(x, m, ps).x.parts, m).Keys <= bound
    ensures Flush(y, m, ps).ok && View(Flush(x, m, ps).x, m) == View(Flush(y, m, ps).x, m)
  {
    FlushViews(x, m, ps);
    FlushFromView(y, m, ps, bound);
    FlushViews(y, m, ps);
  }
}
