/** Per-key throttling: at most one request per key every `minInterval` seconds. */
module RateLimit {
  import opened Wrappers

  /** The injected monotonic clock: its `k`-th reading is `reading(k)`; `readCount` counts the calls so far. */
  class Clock {
    const reading: nat -> real
    var readCount: nat

    constructor (reading: nat -> real)
      ensures this.reading == reading && readCount == 0
    {
      this.reading := reading;
      readCount := 0;
    }

    /** `now()`: the next reading. */
    method Now() returns (t: real)
      modifies this
      ensures t == reading(old(readCount)) && readCount == old(readCount) + 1
    {
      t := reading(readCount);
      readCount := readCount + 1;
    }
  }

  /** The injected sleeper, recording every duration it is asked to sleep. */
  class Sleeper {
    var slept: seq<real>

    constructor ()
      ensures slept == []
    {
      slept := [];
    }

    method Sleep(seconds: real)
      modifies this
      ensures slept == old(slept) + [seconds]
    {
      slept := slept + [seconds];
    }
  }

  /** The outcome of one wait: the time recorded for the key and the sleeps requested (none or one). */
  datatype Step = Step(recorded: real, sleeps: seq<real>)

  /**
   * One wait, given the key's previous record `last` and the clock reading `current`: sleep off the
   * rest of the interval when the key was seen less than `minInterval` ago, then record the time.
   */
  function WaitStep(last: Option<real>, current: real, minInterval: real): Step {
    match last
    case None => Step(current, [])
    case Some(t) =>
      var elapsed := current - t;
      if elapsed < minInterval then
        var sleepFor := minInterval - elapsed;
        Step(current + sleepFor, [sleepFor])
      else Step(current, [])
  }

  /** The first wait for a key never sleeps and records the reading. */
  lemma FirstWaitNeverSleeps(current: real, minInterval: real)
    ensures WaitStep(None, current, minInterval) == Step(current, [])
  {
  }

  /**
   * A wait sleeps exactly when the key was seen less than `minInterval` ago, and then exactly once
   * for the rest of the interval, recording `last + minInterval`; otherwise it records the reading.
   */
  lemma WaitSleepsIffTooSoon(last: real, current: real, minInterval: real)
    ensures var s := WaitStep(Some(last), current, minInterval);
      (s.sleeps != [] <==> current - last < minInterval)
      && (current - last < minInterval ==>
            s.sleeps == [minInterval - (current - last)] && s.recorded == last + minInterval
            && s.recorded == current + s.sleeps[0])
      && (current - last >= minInterval ==> s == Step(current, []))
  {
  }

  /**
   * With a monotone clock every sleep lies in (0, minInterval], and successive records for one key
   * are at least `minInterval` apart and never before the reading.
   */
  lemma SleepBounds(last: real, current: real, minInterval: real)
    requires last <= current
    ensures var s := WaitStep(Some(last), current, minInterval);
      (forall k :: 0 <= k < |s.sleeps| ==> 0.0 < s.sleeps[k] <= minInterval)
      && s.recorded >= last + minInterval && s.recorded >= current
  {
  }

  /** The limiter: the minimum spacing, its collaborators and the last time recorded per key. */
  class RateLimiter {
    const minInterval: real
    const clock: Clock
    const sleeper: Sleeper
    var lastSeen: map<string, real>

    constructor (minInterval: real, clock: Clock, sleeper: Sleeper)
      ensures this.minInterval == minInterval && this.clock == clock && this.sleeper == sleeper
      ensures lastSeen == map[]
    {
      this.minInterval := minInterval;
      this.clock := clock;
      this.sleeper := sleeper;
      lastSeen := map[];
    }

    /** The key's previous record, as `last_seen.get(key)`. */
    function LastFor(key: string): Option<real>
      reads this
    {
      if key in lastSeen then Some(lastSeen[key]) else None
    }

    /**
     * `wait(key)`: reads the clock once, sleeps as `WaitStep` says, and records the resulting time
     * under `key`; every other key's record is untouched.
     */
    method Wait(key: string)
      modifies this, clock, sleeper
      ensures var s := WaitStep(old(LastFor(key)), clock.reading(old(clock.readCount)), minInterval);
        lastSeen == old(lastSeen)[key := s.recorded] && sleeper.slept == old(sleeper.slept) + s.sleeps
      ensures clock.readCount == old(clock.readCount) + 1
      ensures forall k :: k in old(lastSeen) && k != key ==> k in lastSeen && lastSeen[k] == old(lastSeen)[k]
    {
      var last := LastFor(key);
      var current := clock.Now();
      if last.Some? {
        var elapsed := current - last.value;
        if elapsed < minInterval {
          var sleepFor := minInterval - elapsed;
          sleeper.Sleep(sleepFor);
          current := current + sleepFor;
        }
      }
      lastSeen := lastSeen[key := current];
    }
  }

  /** Readings 0.0 then 0.1 with a one-second interval: the second wait on the key sleeps 0.9. */
  method TwoWaitsExample() returns (slept: seq<real>)
    ensures slept == [0.9] && slept[0] >= 0.9
  {
    var clock := new Clock((k: nat) => if k == 0 then 0.0 else 0.1);
    var sleeper := new Sleeper();
    var limiter := new RateLimiter(1.0, clock, sleeper);
    limiter.Wait("github");
    limiter.Wait("github");
    slept := sleeper.slept;
  }
}
