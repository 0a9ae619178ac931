/** How many failures the login throttle can record, and which bucket they go to. */
module ThrottleBound {
  import opened Prelude
  import opened Tables
  import opened Throttle

  /** A rejected credential check, or a cleanup that meets the bucket. */
  datatype Event = Failure(now: Time) | Collect(now: Time)

  function After(bucket: Option<Bucket>, cfg: Config, e: Event): Option<Bucket> {
    match e
    case Failure(now) => Some(RecordFailure(bucket, cfg, now))
    case Collect(now) => if bucket.Some? && bucket.value.expiresAt <= now then None else bucket
  }

  /** A failure is recorded unless the bucket is blocked. */
  function Recorded(bucket: Option<Bucket>, e: Event): nat {
    if e.Failure? && !IsBlocked(bucket, e.now) then 1 else 0
  }

  function Total(bucket: Option<Bucket>, cfg: Config, events: seq<Event>): nat
    decreases |events|
  {
    if events == [] then 0
    else Recorded(bucket, events[0]) + Total(After(bucket, cfg, events[0]), cfg, events[1..])
  }

  function Final(bucket: Option<Bucket>, cfg: Config, events: seq<Event>): Option<Bucket>
    decreases |events|
  {
    if events == [] then bucket else Final(After(bucket, cfg, events[0]), cfg, events[1..])
  }

  /** Times do not decrease and lie between `from` and `to`. */
  predicate Within(events: seq<Event>, from: Time, to: Time)
    decreases |events|
  {
    events == [] || (from <= events[0].now <= to && Within(events[1..], events[0].now, to))
  }

  /** What every bucket of a run satisfies: the count is between one and the
      threshold, all failures of a count lie within the window of the first, a block is
      set exactly at the threshold and lasts from the last failure, and the row outlives
      both the window and the lock. */
  predicate Sound(b: Bucket, cfg: Config) {
    && 1 <= b.count <= cfg.threshold && b.firstFailure <= b.lastFailure < b.firstFailure + Window(cfg)
    && (b.blockedUntil.Some? <==> b.count == cfg.threshold)
    && (b.blockedUntil.Some? ==> b.blockedUntil.value == b.lastFailure + Lock(cfg))
    && b.expiresAt == b.lastFailure + Max(Window(cfg), Lock(cfg))
  }

  lemma AfterSound(bucket: Option<Bucket>, cfg: Config, e: Event)
    requires cfg.Positive() && (bucket.Some? ==> Sound(bucket.value, cfg) && bucket.value.lastFailure <= e.now)
    ensures After(bucket, cfg, e).Some? ==>
      Sound(After(bucket, cfg, e).value, cfg) && After(bucket, cfg, e).value.lastFailure <= e.now
  {}

  /** From an absent bucket, at every point of a run with non-decreasing times: the
      count never exceeds the threshold and a block is set exactly at it. */
  lemma {:induction false} RunsStaySound(bucket: Option<Bucket>, cfg: Config, events: seq<Event>, from: Time, to: Time)
    requires cfg.Positive() && Within(events, from, to)
    requires bucket.Some? ==> Sound(bucket.value, cfg) && bucket.value.lastFailure <= from
    ensures Final(bucket, cfg, events).Some? ==> Sound(Final(bucket, cfg, events).value, cfg)
    decreases |events|
  {
    hide Sound;
    if events != [] {
      AfterSound(bucket, cfg, events[0]);
      RunsStaySound(After(bucket, cfg, events[0]), cfg, events[1..], events[0].now, to);
    }
  }

  /** Failures in a row, each after the one before and within the window of the first. */
  predicate Burst(cfg: Config, times: seq<Time>) {
    && times != [] && (forall i, j | 0 <= i < j < |times| :: times[i] <= times[j])
    && times[|times| - 1] < times[0] + Window(cfg)
  }

  function Failures(times: seq<Time>): seq<Event> { seq(|times|, i requires 0 <= i < |times| => Failure(times[i])) }

  /** The lock does come: a burst of failures counts every one of them, and the bucket
      is blocked after the last exactly if there were `threshold` of them, for exactly
      the lock time. */
  lemma {:induction false} BurstBlocks(cfg: Config, times: seq<Time>, now: Time)
    requires cfg.Positive() && Burst(cfg, times) && |times| <= cfg.threshold && times[|times| - 1] <= now
    ensures var b := Final(None, cfg, Failures(times));
            && b.Some? && Sound(b.value, cfg) && b.value.count == |times| && b.value.firstFailure == times[0]
            && b.value.lastFailure == times[|times| - 1]
            && (IsBlocked(b, now) <==> |times| == cfg.threshold && now < times[|times| - 1] + Lock(cfg))
    decreases |times|
  {
    var n := |times| - 1;
    if n == 0 {
      assert Failures(times) == [Failure(times[0])];
    } else {
      assert Failures(times) == Failures(times[..n]) + [Failure(times[n])];
      BurstBlocks(cfg, times[..n], times[n]);
      FinalSnoc(None, cfg, Failures(times[..n]), Failure(times[n]));
      AfterSound(Final(None, cfg, Failures(times[..n])), cfg, Failure(times[n]));
    }
  }

  lemma {:induction false} FinalSnoc(bucket: Option<Bucket>, cfg: Config, events: seq<Event>, last: Event)
    ensures Final(bucket, cfg, events + [last]) == After(Final(bucket, cfg, events), cfg, last)
    decreases |events|
  {
    hide After;
    if events == [] {
      assert events + [last] == [last];
    } else {
      assert (events + [last])[1..] == events[1..] + [last];
      FinalSnoc(After(bucket, cfg, events[0]), cfg, events[1..], last);
    }
  }

  // ---------------------------------------------------------------- what is counted

  /** The times of the failures that a run records, in order. */
  function Times(bucket: Option<Bucket>, cfg: Config, events: seq<Event>): seq<Time>
    decreases |events|
  {
    if events == [] then []
    else
      (if Recorded(bucket, events[0]) == 1 then [events[0].now] else [])
      + Times(After(bucket, cfg, events[0]), cfg, events[1..])
  }

  lemma {:induction false} TimesSnoc(bucket: Option<Bucket>, cfg: Config, events: seq<Event>, last: Event)
    ensures Times(bucket, cfg, events + [last])
            == Times(bucket, cfg, events)
               + if Recorded(Final(bucket, cfg, events), last) == 1 then [last.now] else []
    decreases |events|
  {
    hide After, Recorded;
    if events == [] {
      assert events + [last] == [last];
    } else {
      assert (events + [last])[1..] == events[1..] + [last];
      TimesSnoc(After(bucket, cfg, events[0]), cfg, events[1..], last);
    }
  }

  lemma {:induction false} WithinInit(events: seq<Event>, from: Time, to: Time)
    requires events != [] && Within(events, from, to)
    ensures Within(events[..|events| - 1], from, events[|events| - 1].now)
    ensures from <= events[|events| - 1].now <= to
    decreases |events|
  {
    if |events| > 1 {
      WithinInit(events[1..], events[0].now, to);
      assert events[..|events| - 1][1..] == events[1..][..|events| - 2];
    }
  }

  /** The bucket after recorded failures at `times`: its count is that of those from its
      first failure on, which are the last ones; all before are strictly earlier. */
  predicate Counts(bucket: Option<Bucket>, times: seq<Time>, now: Time) {
    && (forall i | 0 <= i < |times| :: times[i] <= now)
    && match bucket
       case Some(b) =>
         && b.count <= |times| && b.lastFailure <= now && (forall i | 0 <= i < |times| :: times[i] <= b.lastFailure)
         && (forall i | 0 <= i < |times| :: b.firstFailure <= times[i] <==> |times| - b.count <= i)
         && (b.count > 0 ==> times[|times| - 1] == b.lastFailure && times[|times| - b.count] == b.firstFailure)
       case None => forall i | 0 <= i < |times| :: times[i] < now
  }

  lemma OneMore(bucket: Option<Bucket>, cfg: Config, times: seq<Time>, e: Event, before: Time)
    requires cfg.Positive() && before <= e.now && (bucket.Some? ==> Sound(bucket.value, cfg))
    requires Counts(bucket, times, before)
    ensures var after := times + if Recorded(bucket, e) == 1 then [e.now] else [];
            Counts(After(bucket, cfg, e), after, e.now)
  {}

  /** At every point of a run with non-decreasing times the count is exact: it is the
      number of failures recorded at or after the first failure of the bucket, which all
      lie within one window of it. */
  lemma {:induction false} CountIsExact(cfg: Config, events: seq<Event>, from: Time, to: Time)
    requires cfg.Positive() && Within(events, from, to)
    ensures var b, times := Final(None, cfg, events), Times(None, cfg, events);
            && Counts(b, times, to)
            && (b.Some? ==> Sound(b.value, cfg) && b.value.lastFailure <= to)
    decreases |events|
  {
    hide Counts, Sound, After, Recorded;
    NothingCounted(to);
    if events != [] {
      var n := |events| - 1;
      var init, e := events[..n], events[n];
      assert events == init + [e];
      WithinInit(events, from, to);
      CountIsExact(cfg, init, from, e.now);
      FinalSnoc(None, cfg, init, e);
      TimesSnoc(None, cfg, init, e);
      AfterSound(Final(None, cfg, init), cfg, e);
      OneMore(Final(None, cfg, init), cfg, Times(None, cfg, init), e, e.now);
      CountsLater(Final(None, cfg, events), Times(None, cfg, events), e.now, to);
    }
  }

  lemma NothingCounted(now: Time)
    ensures Counts(None, [], now)
  {}

  lemma CountsLater(bucket: Option<Bucket>, times: seq<Time>, since: Time, now: Time)
    requires Counts(bucket, times, since) && since <= now
    ensures Counts(bucket, times, now)
  {}

  /** A failure after the window of the first one, or after the end of a block, begins a
      new count; one during a block is not recorded; any other counts one more. A block
      comes with the count that reaches the threshold, and lasts the lock time. */
  lemma FailureEffect(b: Bucket, cfg: Config, now: Time)
    requires cfg.Positive() && Sound(b, cfg) && b.lastFailure <= now
    ensures
      var after := RecordFailure(Some(b), cfg, now);
      var first := Bucket(1, now, now, if cfg.threshold == 1 then Some(now + Lock(cfg)) else None,
                          now + if Window(cfg) <= Lock(cfg) then Lock(cfg) else Window(cfg));
      if b.count == cfg.threshold
      then after == (if now < b.lastFailure + Lock(cfg) then b else first)
      else if b.firstFailure + Window(cfg) <= now then after == first
      else after == first.(count := b.count + 1, firstFailure := b.firstFailure,
                           blockedUntil := if b.count + 1 == cfg.threshold then Some(now + Lock(cfg)) else None)
    ensures IsBlocked(Some(b), now) <==> b.count == cfg.threshold && now < b.lastFailure + Lock(cfg)
    ensures RecordFailure(None, cfg, now)
            == Bucket(1, now, now, if cfg.threshold == 1 then Some(now + Lock(cfg)) else None,
                      now + if Window(cfg) <= Lock(cfg) then Lock(cfg) else Window(cfg))
  {}

  // ---------------------------------------------------------------- the bound

  /** Counts start over no sooner than this. */
  function Period(cfg: Config): nat { Min(Window(cfg), Lock(cfg)) }

  lemma PeriodPositive(cfg: Config)
    requires cfg.Positive()
    ensures 0 < Period(cfg)
  {}

  lemma OnePeriodLater(first: Time, now: Time, to: Time, m: nat)
    requires 0 < m && first + m <= now <= to
    ensures (to - now) / m + 1 <= (to - first) / m
  {
    var q := (to - now) / m;
    assert (q + 1) * m <= to - first;
    assert (q + 1) <= (to - first) / m by { DivideBound(q + 1, to - first, m); }
  }

  lemma DivideBound(q: nat, n: nat, m: nat)
    requires 0 < m && q * m <= n
    ensures q <= n / m
  {
    assert n < (n / m + 1) * m by { assert n == n / m * m + n % m; }
    FactorLess(q, n / m + 1, m);
  }

  lemma FactorLess(a: nat, b: nat, m: nat)
    requires 0 < m && a * m < b * m
    ensures a < b
  {}

  lemma Later(from: Time, now: Time, to: Time, m: nat)
    requires 0 < m && from <= now <= to
    ensures (to - now) / m <= (to - from) / m
  {
    DivideBound((to - now) / m, to - from, m);
  }

  /** One full count for every period between two times. */
  function Budget(cfg: Config, from: Time, to: Time): nat
    requires cfg.Positive() && from <= to
  {
    cfg.threshold * ((to - from) / Period(cfg))
  }

  lemma PeriodSpends(cfg: Config, first: Time, now: Time, to: Time)
    requires cfg.Positive() && first + Period(cfg) <= now <= to
    ensures cfg.threshold + Budget(cfg, now, to) <= Budget(cfg, first, to)
  {
    var m, t := Period(cfg), cfg.threshold;
    OnePeriodLater(first, now, to, m);
    TimesGrows(t, (to - now) / m + 1, (to - first) / m);
    assert t * ((to - now) / m + 1) == t * ((to - now) / m) + t;
  }

  lemma WaitingSpends(cfg: Config, from: Time, now: Time, to: Time)
    requires cfg.Positive() && from <= now <= to
    ensures Budget(cfg, now, to) <= Budget(cfg, from, to)
  {
    Later(from, now, to, Period(cfg));
    TimesGrows(cfg.threshold, (to - now) / Period(cfg), (to - from) / Period(cfg));
  }

  lemma TimesGrows(t: nat, x: nat, y: nat)
    requires x <= y
    ensures t * x <= t * y
  {}

  /** What one event can do to a sound bucket: nothing, one more in the count, or a
      new count (or none) that starts at least one period later. */
  lemma StepCases(b: Bucket, cfg: Config, e: Event)
    requires cfg.Positive() && Sound(b, cfg) && b.lastFailure <= e.now
    ensures var after, n := After(Some(b), cfg, e), Recorded(Some(b), e);
            || (after == Some(b) && n == 0)
            || (after.Some? && n == 1 && after.value.count == b.count + 1 <= cfg.threshold
                && after.value.firstFailure == b.firstFailure)
            || (after.Some? && n == 1 && after.value.count == 1 && after.value.firstFailure == e.now
                && b.firstFailure + Period(cfg) <= e.now)
            || (after.None? && n == 0 && b.firstFailure + Period(cfg) <= e.now)
  {}

  /** The failures still possible: the rest of the current count, and one full count
      for every period that is left. */
  lemma {:induction false} FromBucket(b: Bucket, cfg: Config, events: seq<Event>, from: Time, to: Time)
    requires cfg.Positive() && Sound(b, cfg) && b.lastFailure <= from <= to && Within(events, from, to)
    ensures Total(Some(b), cfg, events) <= cfg.threshold - b.count + Budget(cfg, b.firstFailure, to)
    decreases |events|
  {
    hide Budget, Period, After, Recorded;
    if events != [] {
      var e, rest := events[0], events[1..];
      var after := After(Some(b), cfg, e);
      AfterSound(Some(b), cfg, e);
      StepCases(b, cfg, e);
      PeriodPositive(cfg);
      if after.None? {
        FromNothing(cfg, rest, e.now, to);
        PeriodSpends(cfg, b.firstFailure, e.now, to);
      } else {
        FromBucket(after.value, cfg, rest, e.now, to);
        if after != Some(b) && after.value.count != b.count + 1 {
          PeriodSpends(cfg, b.firstFailure, e.now, to);
        }
      }
    }
  }

  lemma {:induction false} FromNothing(cfg: Config, events: seq<Event>, from: Time, to: Time)
    requires cfg.Positive() && from <= to && Within(events, from, to)
    ensures Total(None, cfg, events) <= cfg.threshold + Budget(cfg, from, to)
    decreases |events|
  {
    hide Budget, Period;
    if events != [] {
      var e, rest := events[0], events[1..];
      WaitingSpends(cfg, from, e.now, to);
      if e.Failure? {
        AfterSound(None, cfg, e);
        FromBucket(FreshBucket(cfg, e.now), cfg, rest, e.now, to);
      } else {
        FromNothing(cfg, rest, e.now, to);
      }
    }
  }

  /** In any span of `span` microseconds that starts without a bucket, at most
      threshold * (1 + floor(span / min(window, lock))) failures are recorded, however
      the attempts and cleanups are timed. */
  lemma FailuresBounded(cfg: Config, events: seq<Event>, start: Time, span: nat)
    requires cfg.Positive() && Within(events, start, start + span)
    ensures Total(None, cfg, events) <= cfg.threshold * (1 + span / Min(Window(cfg), Lock(cfg)))
  {
    FromNothing(cfg, events, start, start + span);
    var q := span / Min(Window(cfg), Lock(cfg));
    assert cfg.threshold * (1 + q) == cfg.threshold + cfg.threshold * q;
  }

  // ---------------------------------------------------------------- which bucket

  newtype Byte = x: int | 0 <= x < 256

  /** `len(encoded).to_bytes(8, 'big')`, for any number of bytes. */
  function BigEndian(n: nat, width: nat): (r: seq<Byte>)
    ensures |r| == width
  {
    if width == 0 then [] else BigEndian(n / 256, width - 1) + [(n % 256) as Byte]
  }

  function Power(width: nat): (p: nat)
    ensures 0 < p
  {
    if width == 0 then 1 else 256 * Power(width - 1)
  }

  lemma {:induction false} BigEndianInjective(m: nat, n: nat, width: nat)
    requires m < Power(width) && n < Power(width) && BigEndian(m, width) == BigEndian(n, width)
    ensures m == n
  {
    if width > 0 {
      var a, b := BigEndian(m, width), BigEndian(n, width);
      assert BigEndian(m / 256, width - 1) == a[..width - 1] && BigEndian(n / 256, width - 1) == b[..width - 1];
      assert a[width - 1] == (m % 256) as Byte && b[width - 1] == (n % 256) as Byte;
      BigEndianInjective(m / 256, n / 256, width - 1);
    }
  }

  /** What the digest of a bucket reads: each value after its length. */
  function Framed(values: seq<seq<Byte>>): seq<Byte> {
    if values == [] then [] else BigEndian(|values[0]|, 8) + values[0] + Framed(values[1..])
  }

  method DigestInput(values: seq<seq<Byte>>) returns (input: seq<Byte>)
    ensures input == Framed(values)
  {
    input := [];
    var i := 0;
    while i < |values|
      invariant i <= |values| && Framed(values) == input + Framed(values[i..])
    {
      assert values[i..][1..] == values[i + 1..];
      input := input + BigEndian(|values[i]|, 8);
      input := input + values[i];
      i := i + 1;
    }
  }

  /** Different realms, identifiers or addresses never feed the digest the same bytes,
      wherever the boundaries between them fall. */
  lemma {:induction false} FramedInjective(a: seq<seq<Byte>>, b: seq<seq<Byte>>)
    requires |a| == |b| && Framed(a) == Framed(b)
    requires forall i | 0 <= i < |a| :: |a[i]| < Power(8) && |b[i]| < Power(8)
    ensures a == b
  {
    if a != [] {
      var m, n := |a[0]|, |b[0]|;
      assert Framed(a)[..8] == BigEndian(m, 8) && Framed(b)[..8] == BigEndian(n, 8);
      BigEndianInjective(m, n, 8);
      assert Framed(a)[8..8 + m] == a[0] && Framed(b)[8..8 + n] == b[0];
      assert Framed(a)[8 + m..] == Framed(a[1..]) && Framed(b)[8 + n..] == Framed(b[1..]);
      FramedInjective(a[1..], b[1..]);
    }
  }
}
