/** The limiter as it is written: one object whose map and counters are updated in place. */
module SourceLimiter {
  import opened Base
  import opened Limiter
  import opened LimiterTheorems

  class SourceLimiter {
    var entries: map<Source, Window>
    const maximum: int
    const duration: int
    var latestObservation: Option<Time>
    var nextObservationOrder: nat

    function Now(): Limits
      reads this
    {
      Limits(entries, maximum, duration, latestObservation, nextObservationOrder)
    }

    ghost predicate Valid()
      reads this
    {
      Fits(Now())
    }

    constructor (maximum: int, duration: int)
      ensures Valid() && Now() == New(maximum, duration)
    {
      entries, this.maximum, this.duration, latestObservation, nextObservationOrder := map[], maximum, duration, None, 0;
    }

    method ObserveNow(now: Time) returns (observedAt: Time, order: nat)
      modifies this`latestObservation, this`nextObservationOrder
      ensures Now() == Observe(old(Now()), now) && observedAt == ObservedAt(old(Now()), now) && order == old(Now()).next + 1
    {
      if latestObservation.None? || now > latestObservation.value {
        latestObservation := Some(now);
      }
      nextObservationOrder := nextObservationOrder + 1;
      return latestObservation.value, nextObservationOrder;
    }

    method ReclaimExpired(now: Time)
      modifies this`entries
      ensures Now() == Reclaim(old(Now()), now)
    {
      var todo := entries.Keys;
      while todo != {}
        invariant todo <= old(entries).Keys
        invariant forall s <- old(entries) :: s in entries <==> s in todo || !Expired(Now(), old(entries)[s].started, now)
        invariant forall s <- entries :: s in old(entries) && entries[s] == old(entries)[s]
        decreases |todo|
      {
        var s := Choose(todo);
        if now - entries[s].started >= duration {
          entries := entries - {s};
        }
        todo := todo - {s};
      }
      ghost var kept := Kept(old(entries), duration, now);
      assert forall s :: s in entries ==> s in kept && entries[s] == kept[s];
      assert forall s :: s in kept ==> s in entries;
      assert entries.Keys == kept.Keys;
    }

    method EvictLeastRecentlyObserved()
      modifies this`entries
      ensures entries == if old(entries) == map[] then map[] else old(entries) - {Victim(old(entries))}
    {
      var todo := entries.Keys;
      var oldest: Option<Source> := None;
      while todo != {}
        invariant entries == old(entries) && todo <= entries.Keys && (oldest.None? <==> todo == entries.Keys)
        invariant oldest.Some? ==> oldest.value in entries && oldest.value !in todo
        invariant oldest.Some? ==> forall r <- entries | r !in todo && r != oldest.value ::
                    Before(oldest.value, entries[oldest.value], r, entries[r])
        decreases |todo|
      {
        var s := Choose(todo);
        if oldest.None? || Before(s, entries[s], oldest.value, entries[oldest.value]) {
          oldest := Some(s);
        }
        todo := todo - {s};
      }
      if oldest.Some? {
        LeastIsUnique(entries, oldest.value, Victim(entries));
        entries := entries - {oldest.value};
      }
    }

    /** Whether the source may go on, and the new windows. */
    method Allow(source: Source, now: Time) returns (ok: bool)
      requires Valid()
      modifies this
      ensures ok == Answer(old(Now()), source, now)
      ensures Now() == Step(old(Now()), Op.Allow(source, now)) && Valid()
    {
      ghost var l := Now();
      StepKeepsFits(l, Op.Allow(source, now));
      var observedAt, order := ObserveNow(now);
      if source in entries {
        var entry := entries[source].(lastObserved := observedAt, order := order);
        if now - entry.started >= duration {
          entry := entry.(started := now, count := 1);
          entries := entries[source := entry];
          return true;
        }
        if entry.count >= maximum {
          entries := entries[source := entry];
          return false;
        }
        entry := entry.(count := entry.count + 1);
        entries := entries[source := entry];
        return true;
      }
      ReclaimExpired(now);
      assert entries == Reclaim(l, now).entries;
      if |entries| >= MAX_ENTRIES {
        EvictLeastRecentlyObserved();
      }
      assert entries == MakeRoom(l, source, now).entries;
      entries := entries[source := Window(now, observedAt, order, 1)];
      return true;
    }

    method Succeeded(source: Source)
      requires Valid()
      modifies this`entries
      ensures Now() == Step(old(Now()), Op.Succeeded(source)) && Valid()
    {
      StepKeepsFits(Now(), Op.Succeeded(source));
      entries := entries - {source};
    }
  }
}
