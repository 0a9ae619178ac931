/** Values shared by every module: optional columns, identifiers and the clock.

    Random identifiers and secrets (UUIDs, `token_urlsafe`) are drawn from one
    supply of numbers that never repeats. Time is a count of microseconds, so
    that `int(timestamp())` is a floor to whole seconds. */
module Prelude {
  datatype Option<+T> = None | Some(value: T)

  type Id = nat
  type Time = nat

  const SECOND: nat := 1_000_000

  const UPPER := "ABCDEFGHIJKLMNOPQRSTUVWXYZ"
  const LOWER := "abcdefghijklmnopqrstuvwxyz"
  const DIGITS := "0123456789"

  function Floor(t: Time): nat {
    t / SECOND
  }

  function Min(a: nat, b: nat): nat {
    if a < b then a else b
  }

  function Max(a: nat, b: nat): nat {
    if a < b then b else a
  }

  /** `now + timedelta(seconds=override or default)`: a realm override of zero
      or null yields to the configured default. */
  function After(now: Time, override: Option<nat>, default: nat): Time {
    now + SECOND * (if override.Some? && override.value != 0 then override.value else default)
  }

  /** A whole number of seconds is after `t` only if it is after the floor of `t`,
      and conversely: the two expiry checks on `exp` agree. */
  lemma FloorBefore(t: Time, seconds: nat)
    ensures t < seconds * SECOND <==> Floor(t) < seconds
  {
    assert t == Floor(t) * SECOND + t % SECOND;
    if Floor(t) < seconds {
      assert (Floor(t) + 1) * SECOND <= seconds * SECOND;
    } else {
      assert seconds * SECOND <= Floor(t) * SECOND;
    }
  }

  lemma SingletonHasOne<T>(s: set<T>)
    requires |s| == 1
    ensures exists x :: s == {x}
  {
    var x :| x in s;
    assert |s - {x}| == 0;
    assert s == {x};
  }

  /** The element of a set of one: `scalar_one`. */
  function Only<T(==)>(s: set<T>): (x: T)
    requires |s| == 1
    ensures s == {x}
  {
    SingletonHasOne(s);
    var x :| x in s;
    x
  }
}
