/**
 The fixed-window rate limiter (team/runtime_state.py). The clock is read before the guard is taken, so the times
 that reach the guarded part need not be in order. The limits hold whenever no window is seen again after another.
 */
module RateLimiter {
  import opened Wrappers

  datatype State = State(counts: map<string, (int, nat)>, last: Option<int>)

  function Bucket(window: nat, now: real): int
    requires window > 0
  {
    (now / window as real).Floor
  }

  function Ceiling(x: real): int {
    -((-x).Floor)
  }

  /** Whole seconds to the end of the window, at least one. */
  function Wait(window: nat, bucket: int, now: real): nat {
    var wait := Ceiling((bucket + 1) as real * window as real - now);
    if wait > 1 then wait else 1
  }

  /** Seconds to wait, zero when admitted. */
  function ConsumeTx(limit: nat, window: nat, s: State, key: string, now: real): (State, nat)
    requires window > 0
  {
    var bucket := Bucket(window, now);
    var pruned :=
      if s.last == Some(bucket) then s
      else State(map k | k in s.counts && s.counts[k].0 == bucket :: s.counts[k], Some(bucket));
    var count := if key in pruned.counts && pruned.counts[key].0 == bucket then pruned.counts[key].1 else 0;
    if count >= limit then (pruned, Wait(window, bucket, now))
    else (pruned.(counts := pruned.counts[key := (bucket, count + 1)]), 0)
  }

  class FixedWindowRateLimiter {
    const limit: nat
    const window: nat
    var counts: map<string, (int, nat)>
    var last: Option<int>

    constructor (limit: nat, window: nat)
      requires limit > 0 && window > 0
      ensures this.limit == limit && this.window == window && Now() == State(map[], None)
    {
      this.limit, this.window := limit, window;
      counts, last := map[], None;
    }

    function Now(): State
      reads this
    {
      State(counts, last)
    }

    method Consume(key: string, now: real) returns (retryAfter: nat)
      requires window > 0
      modifies this
      ensures (Now(), retryAfter) == ConsumeTx(limit, window, old(Now()), key, now)
    {
      var bucket := Bucket(window, now);
      if last != Some(bucket) {
        counts := map k | k in counts && counts[k].0 == bucket :: counts[k];
        last := Some(bucket);
      }
      var (stored, count) := if key in counts then counts[key] else (bucket, 0);
      if stored != bucket {
        count := 0;
      }
      if count >= limit {
        return Wait(window, bucket, now);
      }
      counts := counts[key := (bucket, count + 1)];
      retryAfter := 0;
    }
  }

  // ---------------------------------------------------------------- runs

  datatype Call = Call(key: string, now: real)

  function After(limit: nat, window: nat, calls: seq<Call>): State
    requires window > 0
  {
    if calls == [] then State(map[], None)
    else
      var n := |calls| - 1;
      ConsumeTx(limit, window, After(limit, window, calls[..n]), calls[n].key, calls[n].now).0
  }

  /** The n-th call is admitted, given the calls before it. */
  predicate Admitted(limit: nat, window: nat, calls: seq<Call>, n: nat)
    requires window > 0 && n < |calls|
  {
    ConsumeTx(limit, window, After(limit, window, calls[..n]), calls[n].key, calls[n].now).1 == 0
  }

  /** How many of the calls of one key in one window were admitted. */
  function AdmittedIn(limit: nat, window: nat, calls: seq<Call>, key: string, bucket: int): nat
    requires window > 0
  {
    if calls == [] then 0
    else
      var n := |calls| - 1;
      AdmittedIn(limit, window, calls[..n], key, bucket)
      + if calls[n].key == key && Bucket(window, calls[n].now) == bucket && Admitted(limit, window, calls, n) then 1 else 0
  }

  /** How many of them were admitted since the window was last entered; zero when the last call was in another one. */
  function AdmittedThisStay(limit: nat, window: nat, calls: seq<Call>, key: string, bucket: int): nat
    requires window > 0
  {
    if calls == [] || Bucket(window, calls[|calls| - 1].now) != bucket then 0
    else
      var n := |calls| - 1;
      AdmittedThisStay(limit, window, calls[..n], key, bucket)
      + if calls[n].key == key && Admitted(limit, window, calls, n) then 1 else 0
  }

  /** For any clocks, the state counts the admissions of the present stay in the current window and nothing else. */
  lemma {:induction false} CountersCountAdmissions(limit: nat, window: nat, calls: seq<Call>, key: string)
    requires window > 0
    ensures var s := After(limit, window, calls);
            if calls == [] then s == State(map[], None)
            else
              var bucket := Bucket(window, calls[|calls| - 1].now);
              var admitted := AdmittedThisStay(limit, window, calls, key, bucket);
              && s.last == Some(bucket)
              && (if key in s.counts then s.counts[key] == (bucket, admitted) else admitted == 0)
              && admitted <= limit
  {
    if calls != [] {
      CountersCountAdmissions(limit, window, calls[..|calls| - 1], key);
    }
  }

  /** For any clocks, a call is admitted exactly while the present stay holds fewer than `limit` admissions of the key. */
  lemma AdmittedExactlyWithinStay(limit: nat, window: nat, calls: seq<Call>, n: nat)
    requires window > 0 && n < |calls|
    ensures Admitted(limit, window, calls, n)
       <==> AdmittedThisStay(limit, window, calls[..n], calls[n].key, Bucket(window, calls[n].now)) < limit
  {
    CountersCountAdmissions(limit, window, calls[..n], calls[n].key);
  }

  // ---------------------------------------------------------------- windows that are not seen again

  /** No window is seen again after a different one. */
  predicate Contiguous(window: nat, calls: seq<Call>)
    requires window > 0
  {
    forall i, j, l :: 0 <= i <= j <= l < |calls| && Bucket(window, calls[i].now) == Bucket(window, calls[l].now) ==>
      Bucket(window, calls[j].now) == Bucket(window, calls[i].now)
  }

  predicate InOrder(calls: seq<Call>) {
    forall i, j :: 0 <= i <= j < |calls| ==> calls[i].now <= calls[j].now
  }

  lemma BucketIsMonotone(window: nat, a: real, b: real)
    requires window > 0 && a <= b
    ensures Bucket(window, a) <= Bucket(window, b)
  {
    assert a / window as real <= b / window as real;
  }

  /** Clocks in order are the usual case. */
  lemma InOrderIsContiguous(window: nat, calls: seq<Call>)
    requires window > 0 && InOrder(calls)
    ensures Contiguous(window, calls)
  {
    hide Bucket;
    forall i, j, l | 0 <= i <= j <= l < |calls| && Bucket(window, calls[i].now) == Bucket(window, calls[l].now)
      ensures Bucket(window, calls[j].now) == Bucket(window, calls[i].now)
    {
      BucketIsMonotone(window, calls[i].now, calls[j].now);
      BucketIsMonotone(window, calls[j].now, calls[l].now);
    }
  }

  lemma ContiguousPrefix(window: nat, calls: seq<Call>, n: nat)
    requires window > 0 && n <= |calls| && Contiguous(window, calls)
    ensures Contiguous(window, calls[..n])
  {
    hide Bucket;
  }

  /** A window no call was in has no admissions. */
  lemma {:induction false} UnseenHasNone(limit: nat, window: nat, calls: seq<Call>, key: string, bucket: int)
    requires window > 0 && forall i :: 0 <= i < |calls| ==> Bucket(window, calls[i].now) != bucket
    ensures AdmittedIn(limit, window, calls, key, bucket) == 0
  {
    hide Bucket, ConsumeTx;
    if calls != [] {
      var n := |calls| - 1;
      assert Bucket(window, calls[n].now) != bucket;
      UnseenHasNone(limit, window, calls[..n], key, bucket);
    }
  }

  /** Before a call in the window the present stay holds all its admissions: the call before is in it too, or none is. */
  lemma {:induction false} StayBefore(limit: nat, window: nat, calls: seq<Call>, n: nat, key: string, bucket: int)
    requires window > 0 && Contiguous(window, calls) && n < |calls| && Bucket(window, calls[n].now) == bucket
    ensures AdmittedThisStay(limit, window, calls[..n], key, bucket) == AdmittedIn(limit, window, calls[..n], key, bucket)
    decreases n
  {
    hide Bucket, ConsumeTx;
    var before := calls[..n];
    if n > 0 {
      assert before[n - 1] == calls[n - 1];
      if Bucket(window, calls[n - 1].now) == bucket {
        StayBefore(limit, window, calls, n - 1, key, bucket);
        assert before[..n - 1] == calls[..n - 1];
      } else {
        forall i | 0 <= i < n
          ensures Bucket(window, before[i].now) != bucket
        {
          assert before[i] == calls[i];
        }
        UnseenHasNone(limit, window, before, key, bucket);
      }
    }
  }

  /** Admitted exactly while fewer than `limit` earlier calls of the key were admitted in the same window. */
  lemma AdmissionIsExact(limit: nat, window: nat, calls: seq<Call>, n: nat)
    requires window > 0 && n < |calls| && Contiguous(window, calls[..n + 1])
    ensures Admitted(limit, window, calls, n)
       <==> AdmittedIn(limit, window, calls[..n], calls[n].key, Bucket(window, calls[n].now)) < limit
  {
    hide Bucket, ConsumeTx;
    AdmittedExactlyWithinStay(limit, window, calls, n);
    assert calls[..n + 1][..n] == calls[..n] && calls[..n + 1][n] == calls[n];
    StayBefore(limit, window, calls[..n + 1], n, calls[n].key, Bucket(window, calls[n].now));
  }

  /** When no window is seen again after another, a key is admitted at most `limit` times in any window. */
  lemma {:induction false} AtMostLimitPerWindow(limit: nat, window: nat, calls: seq<Call>, key: string, bucket: int)
    requires window > 0 && Contiguous(window, calls)
    ensures AdmittedIn(limit, window, calls, key, bucket) <= limit
  {
    hide Bucket, ConsumeTx;
    if calls != [] {
      var n := |calls| - 1;
      ContiguousPrefix(window, calls, n);
      AtMostLimitPerWindow(limit, window, calls[..n], key, bucket);
      assert calls[..n + 1] == calls;
      AdmissionIsExact(limit, window, calls, n);
    }
  }

  /** A window some call was in has at least one admission, when one key makes all calls. */
  lemma {:induction false} SeenIsAdmitted(window: nat, calls: seq<Call>, key: string, i: nat)
    requires window > 0 && i < |calls| && forall c :: c in calls ==> c.key == key
    ensures AdmittedIn(1, window, calls, key, Bucket(window, calls[i].now)) >= 1
    decreases |calls|
  {
    hide Bucket, ConsumeTx;
    var n, bucket := |calls| - 1, Bucket(window, calls[i].now);
    assert calls[n] in calls;
    if i < n {
      SeenIsAdmitted(window, calls[..n], key, i);
    } else {
      AdmittedExactlyWithinStay(1, window, calls, n);
      StayIsPart(1, window, calls[..n], key, bucket);
    }
  }

  lemma {:induction false} StayIsPart(limit: nat, window: nat, calls: seq<Call>, key: string, bucket: int)
    requires window > 0
    ensures AdmittedThisStay(limit, window, calls, key, bucket) <= AdmittedIn(limit, window, calls, key, bucket)
  {
    hide Bucket, ConsumeTx;
    if calls != [] {
      StayIsPart(limit, window, calls[..|calls| - 1], key, bucket);
    }
  }

  /** A window left and entered again admits the key a second time. */
  lemma {:induction false} RevisitAdmitsAgain(window: nat, calls: seq<Call>, key: string, i: nat, j: nat, l: nat)
    requires window > 0 && i < j < l < |calls| && forall c :: c in calls ==> c.key == key
    requires Bucket(window, calls[i].now) == Bucket(window, calls[l].now) != Bucket(window, calls[j].now)
    ensures AdmittedIn(1, window, calls, key, Bucket(window, calls[l].now)) >= 2
    decreases |calls|
  {
    hide Bucket, ConsumeTx;
    var n, bucket := |calls| - 1, Bucket(window, calls[l].now);
    var before := calls[..n];
    assert calls[n] in calls && before[i] == calls[i] && before[j] == calls[j] && before[n - 1] == calls[n - 1];
    if l < n {
      RevisitAdmitsAgain(window, before, key, i, j, l);
    } else if Bucket(window, calls[n - 1].now) == bucket {
      RevisitAdmitsAgain(window, before, key, i, j, n - 1);
    } else {
      AdmittedExactlyWithinStay(1, window, calls, n);
      SeenIsAdmitted(window, before, key, i);
    }
  }

  /** The key is admitted at most `limit` times in every window. */
  ghost predicate KeptTo(limit: nat, window: nat, calls: seq<Call>, key: string)
    requires window > 0
  {
    forall bucket :: AdmittedIn(limit, window, calls, key, bucket) <= limit
  }

  /** The condition is exact: with a limit of one, a key is kept to it exactly if no window is seen again. */
  lemma LimitHoldsExactly(window: nat, calls: seq<Call>, key: string)
    requires window > 0 && forall c :: c in calls ==> c.key == key
    ensures Contiguous(window, calls) <==> KeptTo(1, window, calls, key)
  {
    if Contiguous(window, calls) {
      forall bucket
        ensures AdmittedIn(1, window, calls, key, bucket) <= 1
      {
        AtMostLimitPerWindow(1, window, calls, key, bucket);
      }
    }
    if KeptTo(1, window, calls, key) {
      KeptToOneIsContiguous(window, calls, key);
    }
  }

  lemma KeptToOneIsContiguous(window: nat, calls: seq<Call>, key: string)
    requires window > 0 && (forall c :: c in calls ==> c.key == key) && KeptTo(1, window, calls, key)
    ensures Contiguous(window, calls)
  {
    hide Bucket, AdmittedIn;
    forall i, j, l | 0 <= i <= j <= l < |calls| && Bucket(window, calls[i].now) == Bucket(window, calls[l].now)
      ensures Bucket(window, calls[j].now) == Bucket(window, calls[i].now)
    {
      if Bucket(window, calls[j].now) != Bucket(window, calls[i].now) {
        RevisitAdmitsAgain(window, calls, key, i, j, l);
        assert false;
      }
    }
  }

  /** How many calls of one key with a time from `start` to `start + window` were admitted. */
  function AdmittedDuring(limit: nat, window: nat, calls: seq<Call>, key: string, start: real): nat
    requires window > 0
  {
    if calls == [] then 0
    else
      var n := |calls| - 1;
      AdmittedDuring(limit, window, calls[..n], key, start)
      + if calls[n].key == key && start <= calls[n].now <= start + window as real && Admitted(limit, window, calls, n)
        then 1 else 0
  }

  lemma IntervalMeetsTwoWindows(window: nat, start: real, now: real)
    requires window > 0 && start <= now <= start + window as real
    ensures Bucket(window, now) in {Bucket(window, start), Bucket(window, start) + 1}
  {
    var w := window as real;
    BucketIsMonotone(window, start, now);
    QuotientGrowsByOne(start, now, w);
  }

  lemma {:induction false} IntervalIsCovered(limit: nat, window: nat, calls: seq<Call>, key: string, start: real)
    requires window > 0
    ensures AdmittedDuring(limit, window, calls, key, start)
         <= AdmittedIn(limit, window, calls, key, Bucket(window, start))
            + AdmittedIn(limit, window, calls, key, Bucket(window, start) + 1)
  {
    if calls != [] {
      var n := |calls| - 1;
      IntervalIsCovered(limit, window, calls[..n], key, start);
      if start <= calls[n].now <= start + window as real {
        IntervalMeetsTwoWindows(window, start, calls[n].now);
      }
    }
  }

  /** When no window is seen again, a key is admitted at most twice the limit in any interval of one window's length. */
  lemma AtMostTwiceLimitPerInterval(limit: nat, window: nat, calls: seq<Call>, key: string, start: real)
    requires window > 0 && Contiguous(window, calls)
    ensures AdmittedDuring(limit, window, calls, key, start) <= 2 * limit
  {
    IntervalIsCovered(limit, window, calls, key, start);
    AtMostLimitPerWindow(limit, window, calls, key, Bucket(window, start));
    AtMostLimitPerWindow(limit, window, calls, key, Bucket(window, start) + 1);
  }

  /** Waiting the returned seconds always reaches a later window, and never more than one window is asked for. */
  lemma WaitingReachesLaterWindow(limit: nat, window: nat, s: State, key: string, now: real)
    requires window > 0 && ConsumeTx(limit, window, s, key, now).1 > 0
    ensures var wait := ConsumeTx(limit, window, s, key, now).1;
            1 <= wait <= window && Bucket(window, now + wait as real) > Bucket(window, now)
  {
    var w, bucket := window as real, Bucket(window, now);
    var wait := ConsumeTx(limit, window, s, key, now).1;
    var left := (bucket + 1) as real * w - now;
    assert now / w < (bucket + 1) as real && bucket as real <= now / w;
    assert now == (now / w) * w;
    assert bucket as real * w <= now < (bucket + 1) as real * w by {
      Scale(bucket as real, now / w, w);
      ScaleStrict(now / w, (bucket + 1) as real, w);
    }
    assert (bucket + 1) as real * w == bucket as real * w + w;
    assert 0.0 < left <= w;
    assert Ceiling(left) <= window;
    assert wait as real >= left;
    var later := now + wait as real;
    assert later >= (bucket + 1) as real * w;
    Quotient((bucket + 1) as real, later, w);
    assert Bucket(window, later) >= bucket + 1;
  }

  lemma Scale(a: real, b: real, w: real)
    requires a <= b && w > 0.0
    ensures a * w <= b * w
  {
  }

  lemma ScaleStrict(a: real, b: real, w: real)
    requires a < b && w > 0.0
    ensures a * w < b * w
  {
  }

  lemma Quotient(a: real, b: real, w: real)
    requires a * w <= b && w > 0.0
    ensures a <= b / w
  {
  }

  lemma QuotientGrowsByOne(a: real, b: real, w: real)
    requires b <= a + w && w > 0.0
    ensures b / w <= a / w + 1.0
  {
    var q := a / w;
    assert (q + 1.0) * w == q * w + w;
    if b / w > q + 1.0 {
      ScaleStrict(q + 1.0, b / w, w);
      assert false;
    }
  }

  /** With such clocks the limit fails: an earlier window's count is dropped as soon as a later one is seen. */
  lemma OutOfOrderClocksExceedLimit()
    ensures var calls := [Call("k", 0.0), Call("k", 1.0), Call("k", 0.5)];
            !Contiguous(1, calls) && AdmittedIn(1, 1, calls, "k", 0) == 2
  {
    var calls := [Call("k", 0.0), Call("k", 1.0), Call("k", 0.5)];
    assert Bucket(1, calls[0].now) == 0 == Bucket(1, calls[2].now) && Bucket(1, calls[1].now) == 1;
    assert calls[..2] == [Call("k", 0.0), Call("k", 1.0)] && calls[..1] == [Call("k", 0.0)];
  }
}
