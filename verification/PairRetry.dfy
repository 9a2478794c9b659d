/** How often a daemon that waits to be paired asks again. */
module PairRetry {
  import opened Basics

  /** Durations are in nanoseconds. */
  const SECOND := 1_000_000_000
  const MINUTE := 60 * SECOND
  const HOUR := 60 * MINUTE
  const DAY := 24 * HOUR

  /** How long the loop waits, by how long ago the pair code was saved. */
  function Interval(elapsed: int): nat {
    if elapsed < 5 * MINUTE then 15 * SECOND
    else if elapsed < HOUR then MINUTE
    else 5 * MINUTE
  }

  /** How often the loop sends if it is never late and never stopped. */
  function Sends(elapsed: int): nat
    decreases if elapsed <= DAY then DAY - elapsed + 1 else 0
  {
    if elapsed > DAY then 0 else 1 + Sends(elapsed + Interval(elapsed))
  }

  /** Being later never makes the loop send more: the intervals only grow. */
  lemma {:induction false} LaterIsFewer(early: int, late: int)
    requires early <= late
    ensures Sends(late) <= Sends(early)
    decreases if late <= DAY then DAY - late + 1 else 0
  {
    if late <= DAY {
      LaterIsFewer(early + Interval(early), late + Interval(late));
    }
  }

  /**
   The loop. `late` says how much later than its interval each wait ends, and `stop` whether
   it is stopped instead. It sends at most as often as an undisturbed loop, for whatever
   delays, and just as often if there are none.
   */
  method PairRetryLoop(elapsed: int, late: nat -> nat, stop: nat -> bool) returns (sends: nat, expired: bool)
    ensures sends <= Sends(elapsed)
    ensures (forall i: nat :: late(i) == 0 && !stop(i)) ==> expired && sends == Sends(elapsed)
  {
    var now := elapsed;
    sends := 0;
    while true
      invariant sends + Sends(now) <= Sends(elapsed)
      invariant (forall i: nat :: late(i) == 0) ==> sends + Sends(now) == Sends(elapsed)
      decreases if now <= DAY then DAY - now + 1 else 0
    {
      if now > DAY { return sends, true; }
      var interval := Interval(now);
      if stop(sends) { return sends, false; }
      var next := now + interval + late(sends);
      LaterIsFewer(now + interval, next);
      now := next;
      sends := sends + 1;
    }
  }

  /** k waits of the same length. */
  lemma {:induction false} SameInterval(elapsed: int, interval: nat, k: nat)
    requires forall i :: 0 <= i < k ==> elapsed + i * interval <= DAY && Interval(elapsed + i * interval) == interval
    ensures Sends(elapsed) == k + Sends(elapsed + k * interval)
  {
    if k > 0 {
      SameInterval(elapsed, interval, k - 1);
      var last := elapsed + (k - 1) * interval;
      assert last + interval == elapsed + k * interval;
    }
  }

  /** 20 waits of 15 seconds. */
  lemma FirstFiveMinutes(offset: nat)
    requires offset < 15 * SECOND
    ensures Sends(offset) == 20 + Sends(offset + 5 * MINUTE)
  {
    hide Sends;
    SameInterval(offset, 15 * SECOND, 20);
  }

  /** 55 waits of a minute. */
  lemma FirstHour(offset: nat)
    requires offset < 15 * SECOND
    ensures Sends(offset + 5 * MINUTE) == 55 + Sends(offset + HOUR)
  {
    hide Sends;
    SameInterval(offset + 5 * MINUTE, MINUTE, 55);
  }

  /** 276 waits of five minutes, and one more if the day ends with a wait. */
  lemma FirstDay(offset: nat)
    requires offset < 15 * SECOND
    ensures Sends(offset + HOUR) == if offset == 0 then 277 else 276
  {
    assert Sends(offset + HOUR + 277 * (5 * MINUTE)) == 0;
    assert offset > 0 ==> Sends(offset + HOUR + 276 * (5 * MINUTE)) == 0;
    hide Sends;
    SameInterval(offset + HOUR, 5 * MINUTE, if offset == 0 then 277 else 276);
  }

  lemma FromTheStart(offset: nat)
    requires offset < 15 * SECOND
    ensures Sends(offset) == if offset == 0 then 352 else 351
  {
    hide Sends;
    FirstFiveMinutes(offset);
    FirstHour(offset);
    FirstDay(offset);
  }

  /**
   A loop sends at most 352 times, whatever its delays, if and only if the pair code was not
   saved 15 seconds or more in the future. From a fresh code without delays it sends exactly
   352 times: the bound is tight.
   */
  lemma AtMost352Iff(elapsed: int)
    ensures Sends(elapsed) <= 352 <==> elapsed > -15 * SECOND
    ensures Sends(0) == 352
  {
    FromTheStart(0);
    if elapsed >= 0 {
      LaterIsFewer(0, elapsed);
    } else if elapsed > -15 * SECOND {
      FromTheStart(elapsed + 15 * SECOND);
    } else {
      assert Sends(-15 * SECOND) == 353;
      LaterIsFewer(elapsed, -15 * SECOND);
    }
  }
}
