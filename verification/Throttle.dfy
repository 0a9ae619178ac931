/** Login throttling: one upsert automaton per (realm, identifier, address). */
module Throttle {
  import opened Prelude
  import opened Tables

  function Window(cfg: Config): nat { cfg.windowSeconds * SECOND }

  function Lock(cfg: Config): nat { cfg.lockSeconds * SECOND }

  predicate IsBlocked(bucket: Option<Bucket>, now: Time) {
    bucket.Some? && bucket.value.blockedUntil.Some? && now < bucket.value.blockedUntil.value
  }

  /** The `case` condition under which a failure starts a new count. */
  predicate StartsOver(b: Bucket, cfg: Config, now: Time) {
    || b.firstFailure + Window(cfg) <= now
    || (b.blockedUntil.Some? && b.blockedUntil.value <= now)
  }

  function FreshBucket(cfg: Config, now: Time): Bucket {
    Bucket(1, now, now, if cfg.threshold == 1 then Some(now + Lock(cfg)) else None,
           now + Max(Window(cfg), Lock(cfg)))
  }

  /** `INSERT .. ON CONFLICT DO UPDATE .. WHERE`: a row still blocked is left alone. */
  function RecordFailure(bucket: Option<Bucket>, cfg: Config, now: Time): Bucket {
    match bucket
    case None => FreshBucket(cfg, now)
    case Some(b) =>
      if IsBlocked(bucket, now) then b
      else
        var over := StartsOver(b, cfg, now);
        var count := if over then 1 else b.count + 1;
        Bucket(count, if over then now else b.firstFailure, now,
               if count >= cfg.threshold then Some(now + Lock(cfg)) else None,
               now + Max(Window(cfg), Lock(cfg)))
  }
}
