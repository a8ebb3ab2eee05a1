/**
 The per-source admission limiter: a fixed window per source, kept in a map that
 is capped by reclaiming expired windows and evicting the least recently
 observed one.
 */
module Limiter {
  import opened Base

  /** Sources are compared only to break ties, which never happens. */
  type Source = int
  type Time = int

  const MAX_ENTRIES := 4096

  datatype Window = Window(started: Time, lastObserved: Time, order: nat, count: int)

  /** `latest` is `None` before the first observation. */
  datatype Limits = Limits(entries: map<Source, Window>, maximum: int, duration: int, latest: Option<Time>, next: nat)

  datatype Op = Allow(source: Source, now: Time) | Succeeded(source: Source)

  function New(maximum: int, duration: int): Limits {
    Limits(map[], maximum, duration, None, 0)
  }

  /** Observation time never runs backwards. */
  function ObservedAt(l: Limits, now: Time): Time {
    if l.latest.None? || now > l.latest.value then now else l.latest.value
  }

  function Observe(l: Limits, now: Time): Limits {
    l.(latest := Some(ObservedAt(l, now)), next := l.next + 1)
  }

  predicate Expired(l: Limits, started: Time, now: Time) {
    now - started >= l.duration
  }

  function Kept(entries: map<Source, Window>, duration: int, now: Time): map<Source, Window> {
    map s | s in entries && now - entries[s].started < duration :: entries[s]
  }

  function Reclaim(l: Limits, now: Time): Limits {
    l.(entries := Kept(l.entries, l.duration, now))
  }

  /** The order in which entries are evicted. */
  predicate Before(s: Source, v: Window, r: Source, w: Window) {
    || v.lastObserved < w.lastObserved
    || (v.lastObserved == w.lastObserved && (v.order < w.order || (v.order == w.order && s < r)))
  }

  predicate Least(entries: map<Source, Window>, s: Source) {
    s in entries && forall r <- entries :: r == s || Before(s, entries[s], r, entries[r])
  }

  lemma {:induction false} LeastExists(entries: map<Source, Window>)
    requires entries != map[]
    ensures exists s :: Least(entries, s)
    decreases |entries|
  {
    var k := Member(entries.Keys);
    var rest := entries - {k};
    if rest == map[] {
      forall r | r in entries ensures r == k {
        assert r != k ==> r in rest;
      }
      assert Least(entries, k);
    } else {
      LeastExists(rest);
      var s :| Least(rest, s);
      forall r | r in entries && r != k ensures r in rest && rest[r] == entries[r] {
      }
      assert Least(entries, if Before(s, entries[s], k, entries[k]) then s else k);
    }
  }

  ghost function Victim(entries: map<Source, Window>): (s: Source)
    requires entries != map[]
    ensures Least(entries, s)
  {
    LeastExists(entries);
    var s :| Least(entries, s);
    s
  }

  lemma LeastIsUnique(entries: map<Source, Window>, s: Source, r: Source)
    requires Least(entries, s) && Least(entries, r)
    ensures s == r
  {
  }

  /** A new source may need room after expired windows are gone. */
  predicate Full(l: Limits, source: Source, now: Time) {
    source !in l.entries && |Reclaim(l, now).entries| >= MAX_ENTRIES
  }

  ghost function MakeRoom(l: Limits, source: Source, now: Time): Limits {
    var kept := Reclaim(l, now);
    if |kept.entries| >= MAX_ENTRIES then kept.(entries := kept.entries - {Victim(kept.entries)}) else kept
  }

  /** What a source with a window gets, and its next window. */
  function Judge(l: Limits, w: Window, now: Time): (Window, bool) {
    if Expired(l, w.started, now) then (w.(started := now, count := 1), true)
    else if w.count >= l.maximum then (w, false)
    else (w.(count := w.count + 1), true)
  }

  function Renew(l: Limits, w: Window, now: Time): Window {
    w.(lastObserved := ObservedAt(l, now), order := l.next + 1)
  }

  function Answer(l: Limits, source: Source, now: Time): bool {
    source in l.entries ==> Judge(l, Renew(l, l.entries[source], now), now).1
  }

  ghost function Step(l: Limits, op: Op): Limits {
    match op
    case Allow(source, now) =>
      if source in l.entries then
        Observe(l, now).(entries := l.entries[source := Judge(l, Renew(l, l.entries[source], now), now).0])
      else
        var room := MakeRoom(l, source, now);
        Observe(room, now).(entries := room.entries[source := Window(now, ObservedAt(l, now), l.next + 1, 1)])
    case Succeeded(source) => l.(entries := l.entries - {source})
  }
}
