/**
 The operation counters of `FileOperationEventSource` in Events.cs: the
 running total kept in a 64-bit signed field and advanced with an atomic
 increment, and the incrementing "active operations" counter. Increments
 are applied one after another; their atomicity is not modelled.
 */
module OperationCounters {

  const MinLong: int := -0x8000_0000_0000_0000
  const MaxLong: int := 0x7FFF_FFFF_FFFF_FFFF

  /** A C# `long`. */
  newtype Long = x: int | -0x8000_0000_0000_0000 <= x <= 0x7FFF_FFFF_FFFF_FFFF

  /**
   An atomic increment of a `long`: two's-complement arithmetic, so the
   largest value wraps around to the smallest.
   */
  function Increment(x: Long): (r: Long)
    ensures (r as int - x as int - 1) % 0x1_0000_0000_0000_0000 == 0
    ensures x as int < MaxLong ==> r as int == x as int + 1
  {
    if x as int == MaxLong then MinLong as Long else x + 1
  }

  /** The counter state: active operations since the counter was created, and the running total. */
  datatype EventSource = EventSource(active: nat, total: Long)

  /** The state when the event source is created: no operation counted yet. */
  function Fresh(): (s: EventSource)
    ensures s.total == 0 && s.active == 0
  {
    EventSource(0, 0)
  }

  /** `IncrementOperationsCount`: the total advances by one and the active counter is left alone. */
  function IncrementOperationsCount(s: EventSource): (r: EventSource)
    ensures r.active == s.active
    ensures s.total as int < MaxLong ==> r.total as int == s.total as int + 1
    ensures (r.total as int - s.total as int - 1) % 0x1_0000_0000_0000_0000 == 0
  {
    s.(total := Increment(s.total))
  }

  /** `ActiveFolderOperationCounter.Increment()`: the active counter advances by one, the total is left alone. */
  function IncrementActive(s: EventSource): (r: EventSource)
    ensures r.total == s.total && r.active == s.active + 1
  {
    s.(active := s.active + 1)
  }

  /** `n` successive increments of a total. */
  function IncrementTimes(t: Long, n: nat): Long
  {
    if n == 0 then t else Increment(IncrementTimes(t, n - 1))
  }

  /** Below the wrap-around bound, `n` increments raise the total by exactly `n`. */
  lemma {:induction false} IncrementTimesAdds(t: Long, n: nat)
    requires t as int + n <= MaxLong
    ensures IncrementTimes(t, n) as int == t as int + n
  {
    if n > 0 {
      IncrementTimesAdds(t, n - 1);
    }
  }

  /** After `n` increments from the initial total of zero, the total is `n`. */
  lemma CountFromStart(n: nat)
    requires n <= MaxLong
    ensures IncrementTimes(Fresh().total, n) as int == n
  {
    IncrementTimesAdds(Fresh().total, n);
  }

  /** Below the wrap-around bound, more increments never give a smaller total. */
  lemma IncrementTimesIsMonotone(t: Long, m: nat, n: nat)
    requires m <= n
    requires t as int + n <= MaxLong
    ensures t <= IncrementTimes(t, m) <= IncrementTimes(t, n)
  {
    IncrementTimesAdds(t, m);
    IncrementTimesAdds(t, n);
  }

  /** What may happen to the total: an increment by a handler, or a read by the polling counter. */
  datatype Access = IncrementAccess | PollAccess

  /** The value the polling counter reports: the current total, leaving the state as it was. */
  function Poll(s: EventSource): (r: (Long, EventSource))
    ensures r.1 == s
    ensures r.0 == r.1.total
  {
    (s.total, s)
  }

  /** The final state and the values read, after a sequence of accesses. */
  function Replay(s: EventSource, accesses: seq<Access>): (EventSource, seq<Long>)
    decreases |accesses|
  {
    if |accesses| == 0 then (s, [])
    else match accesses[0]
      case IncrementAccess =>
        Replay(IncrementOperationsCount(s), accesses[1..])
      case PollAccess =>
        var (value, s') := Poll(s);
        var (final, readings) := Replay(s', accesses[1..]);
        (final, [value] + readings)
  }

  /** The number of increments among the accesses. */
  function Increments(accesses: seq<Access>): nat
  {
    if |accesses| == 0 then 0
    else (if accesses[0].IncrementAccess? then 1 else 0) + Increments(accesses[1..])
  }

  /** The number of reads among the accesses. */
  function Polls(accesses: seq<Access>): nat
  {
    if |accesses| == 0 then 0
    else (if accesses[0].PollAccess? then 1 else 0) + Polls(accesses[1..])
  }

  /**
   Reads do not disturb the count: below the wrap-around bound the final total
   is the initial total plus the number of increments, one value is read per
   poll, and the values read never decrease and lie between the initial and
   the final total.
   */
  lemma {:induction false} ReplayCounts(s: EventSource, accesses: seq<Access>)
    requires s.total as int + Increments(accesses) <= MaxLong
    ensures Replay(s, accesses).0.total as int == s.total as int + Increments(accesses)
    ensures Replay(s, accesses).0.active == s.active
    ensures |Replay(s, accesses).1| == Polls(accesses)
    ensures var readings := Replay(s, accesses).1;
      forall i :: 0 <= i < |readings| ==> s.total <= readings[i] <= Replay(s, accesses).0.total
    ensures var readings := Replay(s, accesses).1;
      forall i, j :: 0 <= i < j < |readings| ==> readings[i] <= readings[j]
    decreases |accesses|
  {
    if |accesses| > 0 {
      match accesses[0]
      case IncrementAccess =>
        ReplayCounts(IncrementOperationsCount(s), accesses[1..]);
      case PollAccess =>
        ReplayCounts(s, accesses[1..]);
    }
  }
}
