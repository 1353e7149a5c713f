/** The RSSI statistics of one receive window of the FSK probe (fsk_probe/src/main.c). */
module Rssi {
  import opened CInts
  import opened Links

  // ---------------------------------------------------------------- statistics of samples

  function Sum(s: seq<int16>): int {
    if s == [] then 0 else Sum(s[..|s| - 1]) + s[|s| - 1]
  }

  ghost predicate Within(s: seq<int16>, low: int16, high: int16) {
    forall i :: 0 <= i < |s| ==> low <= s[i] <= high
  }

  /** The extremes of the samples, both reached. */
  ghost predicate Extremes(s: seq<int16>, min: int16, max: int16) {
    Within(s, min, max) && min in s && max in s
  }

  lemma {:induction false} SumBetween(s: seq<int16>, low: int16, high: int16)
    requires Within(s, low, high)
    ensures |s| * low <= Sum(s) <= |s| * high
  {
    if s != [] {
      SumBetween(s[..|s| - 1], low, high);
      assert |s| * low == (|s| - 1) * low + low && |s| * high == (|s| - 1) * high + high;
    }
  }

  lemma SumAppend(s: seq<int16>, x: int16)
    ensures Sum(s + [x]) == Sum(s) + x
    ensures INT16_MAX !in s && x != INT16_MAX ==> INT16_MAX !in s + [x]
  {
    assert (s + [x])[..|s|] == s;
  }

  lemma SumFits(s: seq<int16>, x: int16)
    requires |s| < 0xFFFF
    ensures -0x8000_0000 <= Sum(s) + x < 0x8000_0000
  {
    SumAppend(s, x);
    SumBetween(s + [x], INT16_MIN, INT16_MAX);
  }

  lemma AverageBetween(s: seq<int16>, low: int16, high: int16)
    requires s != [] && Within(s, low, high)
    ensures low <= Quotient(Sum(s), |s|) <= high
  {
    SumBetween(s, low, high);
    QuotientBetween(Sum(s), |s|, low, high);
  }

  lemma ExtremesAdd(s: seq<int16>, min: int16, max: int16, x: int16)
    requires s == [] || Extremes(s, min, max)
    ensures Extremes(s + [x], if s == [] || x < min then x else min, if s == [] || x > max then x else max)
  {
    assert (s + [x])[|s|] == x;
    assert s != [] ==> forall y :: y in s ==> y in s + [x];
  }

  /** `struct rssi_stats`, with the samples it stands for. */
  class RssiStats {
    var min: int16
    var max: int16
    var last: int16
    var sum: int32
    var count: uint32
    ghost var samples: seq<int16>

    ghost predicate Valid()
      reads this
    {
      && count == |samples| && sum == Sum(samples)
      && INT16_MAX !in samples
      && (samples == [] ==> min == INT16_MAX && max == INT16_MIN && last == INT16_MAX)
      && (samples != [] ==> Extremes(samples, min, max) && last == samples[|samples| - 1])
    }

    constructor ()
      ensures Valid() && samples == []
    {
      min, max, last, sum, count := INT16_MAX, INT16_MIN, INT16_MAX, 0, 0;
      samples := [];
    }

    /** `rssi_stats_reset`. */
    method Reset()
      modifies this
      ensures Valid() && samples == []
    {
      min, max, last, sum, count := INT16_MAX, INT16_MIN, INT16_MAX, 0, 0;
      samples := [];
    }

    /** `rssi_stats_sample`: the reading INT16_MAX means that there is none.  The sum must stay a
        32-bit number, which fewer than 0xFFFF samples ensure. */
    method Sample(rssi: int16)
      requires Valid() && |samples| < UINT32_MAX
      requires rssi == INT16_MAX || -0x8000_0000 <= Sum(samples) + rssi < 0x8000_0000
      modifies this
      ensures Valid()
      ensures samples == if rssi == INT16_MAX then old(samples) else old(samples) + [rssi]
    {
      if rssi == INT16_MAX {
        return;
      }
      ghost var after := samples + [rssi];
      SumAppend(samples, rssi);
      ExtremesAdd(samples, min, max, rssi);
      hide Sum, Within, Extremes;
      if rssi < min {
        min := rssi;
      }
      if rssi > max {
        max := rssi;
      }
      last := rssi;
      sum := sum + rssi;
      count := count + 1;
      samples := after;
    }

    /** The average of `log_rssi_stats`; without samples there is none. */
    method Average() returns (average: Option<int>)
      requires Valid() && |samples| < 0x8000_0000
      ensures average.Some? <==> samples != []
      ensures average.Some? ==> min <= average.value <= max
      ensures average.Some? ==> average.value == Quotient(Sum(samples), |samples|)
    {
      if count == 0 {
        return None;
      }
      var signedCount: int32 := count;
      AverageBetween(samples, min, max);
      hide Sum, Extremes, Within, Quotient;
      average := Some(Quotient(sum, signedCount));
    }
  }

  // ---------------------------------------------------------------- the window

  /** What the window sees: the clock, in readings; the event queue and the interrupt handler, in
      rounds; the radio, in samples. */
  datatype Radio = Radio(clock: nat -> int, queue: nat -> Option<int>, irq: nat -> int, rssi: nat -> int16)

  ghost predicate Monotone(clock: nat -> int) {
    forall i, j :: i <= j ==> clock(i) <= clock(j)
  }

  lemma Later(clock: nat -> int, i: nat, j: nat)
    requires Monotone(clock) && i <= j
    ensures clock(i) <= clock(j)
  {
  }

  lemma BeforeHorizon(clock: nat -> int, horizon: nat, i: nat)
    requires Monotone(clock) && clock(i) < clock(horizon)
    ensures i < horizon
  {
    if i >= horizon {
      Later(clock, horizon, i);
    }
  }

  datatype Outcome = Event(event: int) | TimedOut | IrqError(error: int)

  /** The first n readings, without those that are none. */
  function Kept(rssi: nat -> int16, n: nat): seq<int16> {
    if n == 0 then []
    else if rssi(n - 1) == INT16_MAX then Kept(rssi, n - 1)
    else Kept(rssi, n - 1) + [rssi(n - 1)]
  }

  lemma KeptNext(rssi: nat -> int16, n: nat)
    ensures Kept(rssi, n + 1) == if rssi(n) == INT16_MAX then Kept(rssi, n) else Kept(rssi, n) + [rssi(n)]
  {
  }

  lemma {:induction false} KeptAtMost(rssi: nat -> int16, n: nat)
    ensures |Kept(rssi, n)| <= n
  {
    if n > 0 {
      KeptAtMost(rssi, n - 1);
    }
  }

  /** The instants are a period apart, start after the window, and only the last may be late. */
  ghost predicate Spaced(times: seq<int>, start: int, deadline: int, period: nat) {
    && (forall i :: 0 <= i < |times| ==> start <= times[i])
    && (forall i :: 0 <= i < |times| - 1 ==> times[i] + period <= times[i + 1])
    && (forall i :: 0 <= i < |times| - 1 ==> times[i] < deadline)
  }

  lemma {:induction false} SpacedFrom(times: seq<int>, start: int, deadline: int, period: nat, i: nat)
    requires Spaced(times, start, deadline, period) && i < |times|
    ensures start + i * period <= times[i]
  {
    if i > 0 {
      SpacedFrom(times, start, deadline, period, i - 1);
      assert i * period == (i - 1) * period + period;
    }
  }

  lemma SpacedAdd(times: seq<int>, start: int, deadline: int, period: nat, t: int)
    requires Spaced(times, start, deadline, period) && start <= t
    requires times != [] ==> times[|times| - 1] + period <= t && times[|times| - 1] < deadline
    ensures Spaced(times + [t], start, deadline, period)
  {
  }

  function SampleLimit(timeout: nat, period: nat): nat {
    if period == 0 then 0 else if timeout == 0 then 1 else 2 + (timeout - 1) / period
  }

  lemma AtMostQuotient(n: nat, period: nat, t: nat)
    requires period > 0 && n * period <= t
    ensures n <= t / period
  {
    MulBetween(n, 0, t / period, period);
  }

  /** Instants that are a period apart are few. */
  lemma SpacedCount(times: seq<int>, start: int, timeout: nat, period: nat)
    requires period > 0 && Spaced(times, start, start + timeout, period)
    ensures |times| <= SampleLimit(timeout, period)
  {
    if |times| >= 2 {
      SpacedFrom(times, start, start + timeout, period, |times| - 2);
      assert times[|times| - 2] < start + timeout;
      hide Spaced;
      AtMostQuotient(|times| - 2, period, timeout - 1);
    }
  }

  /** The longest window of the configuration takes at most 60501 samples. */
  lemma SampleLimitBound(timeout: nat, period: nat)
    requires timeout <= 60_500
    ensures SampleLimit(timeout, period) <= 60_501
  {
    if period > 0 && timeout > 0 {
      assert (timeout - 1) / period <= timeout - 1;
    }
  }

  /** The rounds before this one neither saw an event nor failed. */
  ghost predicate QuietBefore(radio: Radio, round: nat) {
    forall i :: 0 <= i < round ==> radio.queue(i).None? && radio.irq(i) == 0
  }

  // ---------------------------------------------------------------- when a sample is due

  /** flags says, round by round, whether a sample was taken; taken counts them. */
  function Taken(flags: seq<bool>): nat {
    if flags == [] then 0
    else Taken(flags[..|flags| - 1]) + if flags[|flags| - 1] then 1 else 0
  }

  /** The clock reading that decides whether a sample is due, after the rounds flags: two readings come
      before the first round, two in every round and one more with every sample. */
  function DueReading(radio: Radio, flags: seq<bool>): int {
    radio.clock(3 + 2 * |flags| + Taken(flags))
  }

  /** The instants of the samples: the reading after the one that decided. */
  function TimesOf(radio: Radio, flags: seq<bool>): (times: seq<int>)
    ensures |times| == Taken(flags)
  {
    if flags == [] then []
    else
      var n := |flags| - 1;
      TimesOf(radio, flags[..n]) + if flags[n] then [radio.clock(4 + 2 * n + Taken(flags[..n]))] else []
  }

  /** The first sample is due at once, every other a period after the one before. */
  function NextDue(radio: Radio, times: seq<int>, period: nat): int {
    if times == [] then radio.clock(1) else times[|times| - 1] + period
  }

  /** Every round took a sample exactly if one was due at its reading. */
  ghost predicate DueExactly(radio: Radio, flags: seq<bool>, period: nat) {
    flags == [] ||
    var n := |flags| - 1;
    && DueExactly(radio, flags[..n], period)
    && (flags[n] <==> DueReading(radio, flags[..n]) >= NextDue(radio, TimesOf(radio, flags[..n]), period))
  }

  lemma DueAppend(radio: Radio, flags: seq<bool>, period: nat, due: bool)
    requires DueExactly(radio, flags, period)
    requires due <==> DueReading(radio, flags) >= NextDue(radio, TimesOf(radio, flags), period)
    ensures DueExactly(radio, flags + [due], period)
    ensures Taken(flags + [due]) == Taken(flags) + if due then 1 else 0
    ensures TimesOf(radio, flags + [due]) ==
              TimesOf(radio, flags) + if due then [radio.clock(4 + 2 * |flags| + Taken(flags))] else []
  {
    assert (flags + [due])[..|flags|] == flags;
    hide NextDue, DueReading;
  }

  /** The clock runs by at most gap from one reading to the next. */
  ghost predicate Steady(radio: Radio, gap: nat) {
    forall i: nat :: radio.clock(i) <= radio.clock(i + 1) <= radio.clock(i) + gap
  }

  /** Enough samples are taken: while the clock runs by at most gap from one reading to the next, the
      last reading lies at most a period and three gaps per sample after the start. */
  lemma {:induction false} SamplesEnough(radio: Radio, flags: seq<bool>, period: nat, gap: nat)
    requires DueExactly(radio, flags, period) && period > 0
    requires Steady(radio, gap)
    ensures var n, times := |flags|, TimesOf(radio, flags);
            && radio.clock(1 + 2 * n + |times|) <= radio.clock(1) + Span(|times|, period, gap)
            && (n > 0 ==> times != [])
            && (times != [] ==>
                  && radio.clock(1 + 2 * n + |times|) <= times[|times| - 1] + period
                  && times[|times| - 1] + period <= radio.clock(1) + Span(|times|, period, gap))
  {
    SpanNext(Taken(flags), period, gap);
    hide Steady, Span;
    if flags != [] {
      var n := |flags| - 1;
      SamplesEnough(radio, flags[..n], period, gap);
      var k := Taken(flags[..n]);
      ThreeReadings(radio, 1 + 2 * n + k, gap);
      SpanNext(k, period, gap);
      hide DueExactly;
      assert TimesOf(radio, flags) == TimesOf(radio, flags[..n])
               + if flags[n] then [radio.clock(4 + 2 * n + k)] else [];
      hide TimesOf;
    }
  }

  lemma ThreeReadings(radio: Radio, m: nat, gap: nat)
    requires Steady(radio, gap)
    ensures radio.clock(m) <= radio.clock(m + 2) <= radio.clock(m + 3) <= radio.clock(m) + 3 * gap
  {
    assert radio.clock(m) <= radio.clock(m + 1) <= radio.clock(m) + gap;
    assert radio.clock(m + 1) <= radio.clock(m + 1 + 1) <= radio.clock(m + 1) + gap;
    assert radio.clock(m + 2) <= radio.clock(m + 2 + 1) <= radio.clock(m + 2) + gap;
  }

  /** A period and three gaps for each sample. */
  function Span(samples: nat, period: nat, gap: nat): nat {
    samples * (period + 3 * gap)
  }

  lemma SpanNext(k: nat, period: nat, gap: nat)
    ensures Span(k + 1, period, gap) == Span(k, period, gap) + period + 3 * gap
    ensures Span(0, period, gap) == 0
  {
    assert (k + 1) * (period + 3 * gap) == k * (period + 3 * gap) + (period + 3 * gap);
  }

  /** The rounds so far, the tick and the instant of the next sample at the start of a round. */
  ghost predicate Followed(radio: Radio, period: nat, flags: seq<bool>, tick: nat, next: int, times: seq<int>) {
    && DueExactly(radio, flags, period) && times == TimesOf(radio, flags)
    && tick == 2 + 2 * |flags| + Taken(flags) && next == NextDue(radio, times, period)
  }

  lemma FollowedNext(radio: Radio, period: nat, flags: seq<bool>, tick: nat, next: int, times: seq<int>)
    requires Followed(radio, period, flags, tick, next, times)
    ensures var due := radio.clock(tick + 1) >= next;
            Followed(radio, period, flags + [due], if due then tick + 3 else tick + 2,
                     if due then radio.clock(tick + 2) + period else next,
                     if due then times + [radio.clock(tick + 2)] else times)
  {
    DueAppend(radio, flags, period, radio.clock(tick + 1) >= next);
    hide DueExactly, TimesOf, Taken;
  }

  lemma QuietStart(radio: Radio)
    ensures QuietBefore(radio, 0)
  {
  }

  lemma QuietNext(radio: Radio, round: nat)
    requires QuietBefore(radio, round) && radio.queue(round).None? && radio.irq(round) == 0
    ensures QuietBefore(radio, round + 1)
  {
  }

  /** The samples taken so far and the instant of the next one, after `tick` clock readings. */
  ghost predicate Sampling(radio: Radio, timeout: nat, period: nat, tick: nat, next: int, times: seq<int>) {
    && tick >= 2 && Spaced(times, radio.clock(0), radio.clock(0) + timeout, period)
    && |times| <= SampleLimit(timeout, period)
    && next == (if times == [] then radio.clock(1) else times[|times| - 1] + period)
    && (times != [] ==> times[|times| - 1] <= radio.clock(tick - 1))
  }

  lemma SamplingStarts(radio: Radio, timeout: nat, period: nat)
    ensures Sampling(radio, timeout, period, 2, radio.clock(1), [])
  {
  }

  lemma SamplingLater(radio: Radio, timeout: nat, period: nat, tick: nat, next: int, times: seq<int>)
    requires Monotone(radio.clock) && Sampling(radio, timeout, period, tick, next, times)
    ensures Sampling(radio, timeout, period, tick + 1, next, times)
  {
    Later(radio.clock, tick - 1, tick);
  }

  lemma SamplingMeans(radio: Radio, timeout: nat, period: nat, tick: nat, next: int, times: seq<int>)
    requires Sampling(radio, timeout, period, tick, next, times)
    ensures Spaced(times, radio.clock(0), radio.clock(0) + timeout, period)
    ensures |times| <= SampleLimit(timeout, period)
  {
  }

  method TakeSample(radio: Radio, taken: nat, stats: RssiStats, ghost times: seq<int>, ghost start: int,
                    ghost timeout: nat, ghost period: nat, ghost instant: int)
    requires stats.Valid() && stats.samples == Kept(radio.rssi, taken) && taken == |times|
    requires period > 0 && SampleLimit(timeout, period) <= 0xFFFF && start <= instant
    requires Spaced(times, start, start + timeout, period)
    requires times != [] ==> times[taken - 1] + period <= instant && times[taken - 1] < start + timeout
    modifies stats
    ensures stats.Valid() && stats.samples == Kept(radio.rssi, taken + 1)
    ensures Spaced(times + [instant], start, start + timeout, period)
    ensures taken + 1 <= SampleLimit(timeout, period)
  {
    SpacedAdd(times, start, start + timeout, period, instant);
    SpacedCount(times + [instant], start, timeout, period);
    KeptAtMost(radio.rssi, taken);
    KeptNext(radio.rssi, taken);
    hide Kept, Spaced, SampleLimit;
    SumFits(stats.samples, radio.rssi(taken));
    stats.Sample(radio.rssi(taken));
  }

  /** The sampling step of a round that is not late. */
  method SampleIfDue(radio: Radio, tick: nat, taken: nat, next: int, stats: RssiStats, period: nat,
                     ghost timeout: nat, ghost times: seq<int>)
    returns (tick': nat, taken': nat, next': int, ghost times': seq<int>)
    requires Monotone(radio.clock) && SampleLimit(timeout, period) <= 0xFFFF && period > 0
    requires tick > 2 && radio.clock(tick - 1) < radio.clock(0) + timeout
    requires Sampling(radio, timeout, period, tick, next, times) && taken == |times|
    requires stats.Valid() && stats.samples == Kept(radio.rssi, taken)
    modifies stats
    ensures Sampling(radio, timeout, period, tick', next', times') && taken' == |times'| && times' != []
    ensures stats.Valid() && stats.samples == Kept(radio.rssi, taken')
    ensures var due := radio.clock(tick) >= next;
            && tick' == (if due then tick + 2 else tick + 1)
            && next' == (if due then radio.clock(tick + 1) + period else next)
            && times' == if due then times + [radio.clock(tick + 1)] else times
  {
    tick', taken', next', times' := tick, taken, next, times;
    Later(radio.clock, 0, 1);
    Later(radio.clock, 1, tick);
    Later(radio.clock, tick - 1, tick);
    Later(radio.clock, tick, tick + 1);
    hide Monotone, Spaced, SampleLimit, Kept, RssiStats.Valid;
    var due := radio.clock(tick') >= next;
    tick' := tick' + 1;
    if due {
      next' := radio.clock(tick') + period;
      TakeSample(radio, taken, stats, times, radio.clock(0), timeout, period, radio.clock(tick'));
      times' := times + [radio.clock(tick')];
      taken' := taken' + 1;
      tick' := tick' + 1;
    }
  }

  /** The rounds before round polls: as the clock readings say, or without a sample if none is asked for. */
  ghost predicate Rounds(sampling: bool, radio: Radio, period: nat, flags: seq<bool>,
                         tick: nat, next: int, times: seq<int>, polls: nat) {
    if sampling then
      Followed(radio, period, flags, tick, next, times) && |flags| == polls && (polls > 0 ==> times != [])
    else times == []
  }

  /** What the rounds say of the samples. */
  ghost predicate Sampled(sampling: bool, radio: Radio, period: nat, flags: seq<bool>, times: seq<int>, polls: nat) {
    if sampling then DueExactly(radio, flags, period) && times == TimesOf(radio, flags) && |flags| == polls
    else times == []
  }

  lemma RoundsStart(sampling: bool, radio: Radio, period: nat)
    ensures Rounds(sampling, radio, period, [], 2, radio.clock(1), [], 0)
  {
  }

  lemma RoundsMean(sampling: bool, radio: Radio, period: nat, flags: seq<bool>,
                   tick: nat, next: int, times: seq<int>, polls: nat)
    requires Rounds(sampling, radio, period, flags, tick, next, times, polls)
    ensures Sampled(sampling, radio, period, flags, times, polls) && (sampling && polls > 0 ==> times != [])
  {
  }

  /** The sampling of a round that is not late, if there are statistics and a period. */
  method SampleRound(radio: Radio, tick: nat, taken: nat, next: int, stats: RssiStats?, period: nat,
                     ghost timeout: nat, ghost times: seq<int>, ghost flags: seq<bool>, ghost polls: nat)
    returns (tick': nat, taken': nat, next': int, ghost times': seq<int>, ghost flags': seq<bool>)
    requires Monotone(radio.clock) && (stats != null ==> SampleLimit(timeout, period) <= 0xFFFF)
    requires tick > 2 && radio.clock(tick - 1) < radio.clock(0) + timeout
    requires Sampling(radio, timeout, period, tick, next, times) && taken == |times|
    requires Rounds(stats != null && period > 0, radio, period, flags, tick - 1, next, times, polls)
    requires stats != null ==> stats.Valid() && stats.samples == Kept(radio.rssi, taken)
    modifies stats
    ensures Sampling(radio, timeout, period, tick', next', times') && taken' == |times'|
    ensures Rounds(stats != null && period > 0, radio, period, flags', tick', next', times', polls + 1)
    ensures stats != null ==> stats.Valid() && stats.samples == Kept(radio.rssi, taken')
    ensures tick <= tick' <= tick + 2
  {
    hide Monotone, Spaced, SampleLimit, Kept, RssiStats.Valid, Sampling, Followed;
    tick', taken', next', times', flags' := tick, taken, next, times, flags;
    if stats != null && period > 0 {
      FollowedNext(radio, period, flags, tick - 1, next, times);
      flags' := flags + [radio.clock(tick) >= next];
      tick', taken', next', times' := SampleIfDue(radio, tick, taken, next, stats, period, timeout, times);
    }
  }

  /** `wait_radio_event` on a clock that never runs back and reaches the deadline by the reading
      `horizon`.  Samples are taken at most once a period; the round that ended the wait, the
      instants of the samples and the number of clock readings are for the proof. */
  method WaitRadioEvent(radio: Radio, ghost horizon: nat, timeout: nat, period: nat, stats: RssiStats?)
    returns (outcome: Outcome, ghost round: nat, ghost times: seq<int>, ghost ticks: nat, ghost flags: seq<bool>)
    requires Monotone(radio.clock) && radio.clock(horizon) >= radio.clock(0) + timeout
    requires stats != null ==> stats.Valid() && stats.samples == [] && SampleLimit(timeout, period) <= 0xFFFF
    modifies stats
    ensures stats != null ==> stats.Valid() && stats.samples == Kept(radio.rssi, |times|)
    ensures Spaced(times, radio.clock(0), radio.clock(0) + timeout, period)
    ensures |times| <= SampleLimit(timeout, period)
    ensures Sampled(stats != null && period > 0, radio, period, flags, times,
                    round + if outcome.IrqError? then 1 else 0)
    ensures stats != null && period > 0 && round > 0 ==> times != []
    ensures QuietBefore(radio, round)
    ensures 2 + round <= ticks <= 5 + 3 * round
    ensures round > 0 ==> radio.clock(1 + round) < radio.clock(0) + timeout
    ensures match outcome
            case Event(event) => radio.queue(round) == Some(event)
            case TimedOut => radio.queue(round).None? && radio.clock(ticks - 1) >= radio.clock(0) + timeout
            case IrqError(error) => radio.queue(round).None? && radio.irq(round) == error != 0
  {
    var deadline := radio.clock(0) + timeout;
    var next := radio.clock(1);
    var tick: nat := 2;
    var polls: nat, taken: nat := 0, 0;
    times, flags := [], [];
    assert Kept(radio.rssi, 0) == [];
    SamplingStarts(radio, timeout, period);
    RoundsStart(stats != null && period > 0, radio, period);
    hide Spaced, SampleLimit, Monotone, RssiStats.Valid, Kept, Sampling, Rounds, Sampled, QuietBefore;
    QuietStart(radio);
    while true
      invariant 2 + polls <= tick <= 2 + 3 * polls
      invariant polls > 0 ==> radio.clock(1 + polls) < deadline
      invariant stats != null ==> stats.Valid() && stats.samples == Kept(radio.rssi, taken)
      invariant taken == |times| && Sampling(radio, timeout, period, tick, next, times)
      invariant Rounds(stats != null && period > 0, radio, period, flags, tick, next, times, polls)
      invariant QuietBefore(radio, polls)
      decreases horizon - tick
    {
      SamplingMeans(radio, timeout, period, tick, next, times);
      RoundsMean(stats != null && period > 0, radio, period, flags, tick, next, times, polls);
      var event := radio.queue(polls);
      if event.Some? {
        return Event(event.value), polls, times, tick, flags;
      }
      SamplingLater(radio, timeout, period, tick, next, times);
      var now := radio.clock(tick);
      tick := tick + 1;
      if now >= deadline {
        return TimedOut, polls, times, tick, flags;
      }
      Later(radio.clock, 2 + polls, tick - 1);
      BeforeHorizon(radio.clock, horizon, tick - 1);
      tick, taken, next, times, flags := SampleRound(radio, tick, taken, next, stats, period, timeout, times, flags,
                                                     polls);
      SamplingMeans(radio, timeout, period, tick, next, times);
      RoundsMean(stats != null && period > 0, radio, period, flags, tick, next, times, polls + 1);
      var error := radio.irq(polls);
      if error != 0 {
        return IrqError(error), polls, times, tick, flags;
      }
      QuietNext(radio, polls);
      polls := polls + 1;
    }
  }

  /** One receive window: reset, wait and log.  Over the configured timeouts the sum stays far
      inside 32 bits, and the average lies between the extremes. */
  method Window(radio: Radio, ghost horizon: nat, rxTimeout: nat, period: nat, stats: RssiStats)
    returns (outcome: Outcome, average: Option<int>)
    requires 100 <= rxTimeout <= 60_000 && period <= 5_000
    requires Monotone(radio.clock) && radio.clock(horizon) >= radio.clock(0) + rxTimeout + 500
    modifies stats
    ensures stats.Valid() && stats.count <= 60_501
    ensures -1_982_496_768 <= stats.sum <= 1_982_496_768
    ensures average.Some? <==> stats.count > 0
    ensures average.Some? ==> stats.min <= average.value <= stats.max
    ensures exists n: nat :: stats.samples == Kept(radio.rssi, n) && n <= SampleLimit(rxTimeout + 500, period)
  {
    stats.Reset();
    ghost var round, times, ticks, flags;
    SampleLimitBound(rxTimeout + 500, period);
    outcome, round, times, ticks, flags := WaitRadioEvent(radio, horizon, rxTimeout + 500, period, stats);
    KeptAtMost(radio.rssi, |times|);
    SumBetween(stats.samples, INT16_MIN, INT16_MAX);
    average := stats.Average();
  }
}
