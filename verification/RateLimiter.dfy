/**
 The token bucket of `src/service/rate_limit.py`, over exact reals and supplied clock readings.
 A reading is taken before the lock, so readings may reach the bucket out of order.  Allowed calls are
 bounded by the forward steps of the readings; they are bounded by the length of a window exactly when
 readings never step back.
 */
module RateLimiter {
  import opened Wrappers

  datatype Bucket = Bucket(tokens: real, updatedAt: real)
  datatype Limits = Limits(requestsPerMinute: int, burst: int)
  datatype Verdict = Allowed | Refused(retryAfter: int)

  /** A principal of a tenant. */
  datatype Principal = Principal(tenantId: string, principalId: string)

  predicate Valid(l: Limits) {
    l.requestsPerMinute >= 1 && l.burst >= 1
  }

  function Rate(l: Limits): (r: real)
    ensures Valid(l) ==> r > 0.0
  {
    l.requestsPerMinute as real / 60.0
  }

  /** `math.ceil`. */
  function Ceil(x: real): (n: int)
    ensures n as real >= x && (n - 1) as real < x
  {
    -((-x).Floor)
  }

  /** The bucket a call at `now` finds, before it takes a token. */
  function Refilled(l: Limits, bucket: Option<Bucket>, now: real): Bucket {
    var full := l.burst as real;
    match bucket
    case None => Bucket(full, now)
    case Some(b) =>
      var elapsed := if now - b.updatedAt > 0.0 then now - b.updatedAt else 0.0;
      var tokens := b.tokens + elapsed * Rate(l);
      Bucket(if tokens < full then tokens else full, now)
  }

  /** `allow`. */
  function Admit(l: Limits, bucket: Option<Bucket>, now: real): (Bucket, Verdict)
    requires Valid(l)
  {
    var b := Refilled(l, bucket, now);
    if b.tokens >= 1.0 then (b.(tokens := b.tokens - 1.0), Allowed)
    else
      var wait := Ceil((1.0 - b.tokens) / Rate(l));
      (b, Refused(if wait > 1 then wait else 1))
  }

  // ---------------------------------------------------------------- one principal

  /** The bucket after calls at `readings`. */
  function After(l: Limits, readings: seq<real>): Option<Bucket>
    requires Valid(l)
  {
    if readings == [] then None
    else Some(Admit(l, After(l, readings[..|readings| - 1]), readings[|readings| - 1]).0)
  }

  /** The verdict of call `i`. */
  function VerdictAt(l: Limits, readings: seq<real>, i: nat): Verdict
    requires Valid(l) && i < |readings|
  {
    Admit(l, After(l, readings[..i]), readings[i]).1
  }

  /** How many of the calls `from`, ..., `to - 1` are allowed. */
  function CountAllowed(l: Limits, readings: seq<real>, from: nat, to: nat): nat
    requires Valid(l) && from <= to <= |readings|
  {
    if from == to then 0
    else CountAllowed(l, readings, from, to - 1) + if VerdictAt(l, readings, to - 1).Allowed? then 1 else 0
  }

  predicate InOrder(readings: seq<real>) {
    forall i, j | 0 <= i < j < |readings| :: readings[i] <= readings[j]
  }

  /** The tokens that `seconds` bring back: the rate times the length. */
  function Refill(l: Limits, seconds: real): real {
    Rate(l) * seconds
  }

  lemma RefillAdds(l: Limits, a: real, b: real)
    ensures Refill(l, a + b) == Refill(l, a) + Refill(l, b)
  {
  }

  /** How far the readings of the calls `from`, ..., `to - 1` step forward, all steps back left out. */
  function Forward(readings: seq<real>, from: nat, to: nat): real
    requires from < to <= |readings|
  {
    if from + 1 == to then 0.0
    else
      var step := readings[to - 1] - readings[to - 2];
      Forward(readings, from, to - 1) + if step > 0.0 then step else 0.0
  }

  /**
   In whatever order the readings arrive: tokens left plus calls allowed never exceed the burst plus what
   the forward steps have refilled.
   */
  lemma {:induction false} TokensAreConserved(l: Limits, readings: seq<real>, from: nat, to: nat)
    requires Valid(l) && from < to <= |readings|
    ensures var b := After(l, readings[..to]);
      && b.Some? && b.value.updatedAt == readings[to - 1]
      && b.value.tokens + CountAllowed(l, readings, from, to) as real
           <= l.burst as real + Refill(l, Forward(readings, from, to))
  {
    hide Refill, Rate;
    var last := to - 1;
    assert readings[..to][..last] == readings[..last];
    RefillAdds(l, 0.0, 0.0);
    if from < last {
      TokensAreConserved(l, readings, from, last);
      var step := readings[last] - readings[last - 1];
      RefillAdds(l, Forward(readings, from, last), if step > 0.0 then step else 0.0);
      Elapsed(l, After(l, readings[..last]), readings[last]);
    } else {
      assert CountAllowed(l, readings, from, last) == 0;
      FullAtMost(l, After(l, readings[..last]), readings[last]);
    }
  }

  lemma Elapsed(l: Limits, bucket: Option<Bucket>, now: real)
    requires bucket.Some?
    ensures var step := now - bucket.value.updatedAt;
      Refilled(l, bucket, now).tokens <= bucket.value.tokens + Refill(l, if step > 0.0 then step else 0.0)
  {
  }

  lemma FullAtMost(l: Limits, bucket: Option<Bucket>, now: real)
    ensures Refilled(l, bucket, now).tokens <= l.burst as real
  {
  }

  lemma {:induction false} TokensNonNegative(l: Limits, readings: seq<real>)
    requires Valid(l)
    ensures After(l, readings).Some? ==> 0.0 <= After(l, readings).value.tokens <= l.burst as real
  {
    if readings != [] {
      TokensNonNegative(l, readings[..|readings| - 1]);
      Gains(l, After(l, readings[..|readings| - 1]), readings[|readings| - 1]);
    }
  }

  lemma Gains(l: Limits, bucket: Option<Bucket>, now: real)
    requires Valid(l) && (bucket.Some? ==> 0.0 <= bucket.value.tokens)
    ensures 0.0 <= Refilled(l, bucket, now).tokens <= l.burst as real
  {
    if bucket.Some? && now - bucket.value.updatedAt > 0.0 {
      assert (now - bucket.value.updatedAt) * Rate(l) >= 0.0;
    }
  }

  /** In whatever order the readings arrive, allowed calls are paid for by the burst and the forward steps. */
  lemma CallsArePaid(l: Limits, readings: seq<real>, from: nat, to: nat)
    requires Valid(l) && from < to <= |readings|
    ensures CountAllowed(l, readings, from, to) as real <= l.burst as real + Refill(l, Forward(readings, from, to))
  {
    hide Refill, After, CountAllowed, Rate, Forward;
    TokensAreConserved(l, readings, from, to);
    TokensNonNegative(l, readings[..to]);
  }

  lemma {:induction false} ForwardInOrder(readings: seq<real>, from: nat, to: nat)
    requires from < to <= |readings| && InOrder(readings)
    ensures Forward(readings, from, to) == readings[to - 1] - readings[from]
  {
    if from + 1 < to {
      ForwardInOrder(readings, from, to - 1);
    }
  }

  /** With readings in order, any window of calls holds at most `burst + rate * length` allowed ones. */
  lemma WindowIsBounded(l: Limits, readings: seq<real>, from: nat, to: nat)
    requires Valid(l) && from < to <= |readings| && InOrder(readings)
    ensures CountAllowed(l, readings, from, to) as real
         <= l.burst as real + Refill(l, readings[to - 1] - readings[from])
  {
    hide Refill, CountAllowed, Forward;
    CallsArePaid(l, readings, from, to);
    ForwardInOrder(readings, from, to);
  }

  // ---------------------------------------------------------------- no call is refused in vain

  /** The bound is attained: from some call on, tokens left plus calls allowed are the burst plus the refill. */
  lemma {:induction false} TokensAreExact(l: Limits, readings: seq<real>, to: nat) returns (from: nat)
    requires Valid(l) && 0 < to <= |readings|
    ensures from < to
    ensures var b := After(l, readings[..to]);
      && b.Some? && b.value.updatedAt == readings[to - 1]
      && b.value.tokens + CountAllowed(l, readings, from, to) as real
           == l.burst as real + Refill(l, Forward(readings, from, to))
  {
    hide Refill, Rate, Refilled;
    var last := to - 1;
    assert readings[..to][..last] == readings[..last];
    var found := Refilled(l, After(l, readings[..last]), readings[last]);
    RefillAdds(l, 0.0, 0.0);
    FoundNow(l, After(l, readings[..last]), readings[last]);
    if last == 0 || found.tokens == l.burst as real {
      from := last;
      FreshIsFull(l, readings[last]);
      assert CountAllowed(l, readings, last, last) == 0;
    } else {
      from := TokensAreExact(l, readings, last);
      var step := readings[last] - readings[last - 1];
      RefillAdds(l, Forward(readings, from, last), if step > 0.0 then step else 0.0);
      NotCapped(l, After(l, readings[..last]), readings[last]);
    }
  }

  lemma FoundNow(l: Limits, bucket: Option<Bucket>, now: real)
    ensures Refilled(l, bucket, now).updatedAt == now
  {
  }

  lemma FreshIsFull(l: Limits, now: real)
    ensures Refilled(l, None, now).tokens == l.burst as real
  {
  }

  lemma NotCapped(l: Limits, bucket: Option<Bucket>, now: real)
    requires bucket.Some? && Refilled(l, bucket, now).tokens != l.burst as real
    ensures var step := now - bucket.value.updatedAt;
      Refilled(l, bucket, now).tokens == bucket.value.tokens + Refill(l, if step > 0.0 then step else 0.0)
  {
  }

  /**
   In whatever order the readings arrive, no call is refused in vain: allowing it would have put some stretch of
   calls that ends with it beyond the burst and the forward steps.
   */
  lemma RefusalIsNecessary(l: Limits, readings: seq<real>, k: nat) returns (from: nat)
    requires Valid(l) && k < |readings| && VerdictAt(l, readings, k).Refused?
    ensures from <= k
    ensures CountAllowed(l, readings, from, k) as real + 1.0 > l.burst as real + Refill(l, Forward(readings, from, k + 1))
  {
    hide Refill, Rate, Forward;
    from := TokensAreExact(l, readings, k + 1);
    assert readings[..k + 1][..k] == readings[..k];
    assert After(l, readings[..k + 1]).value.tokens < 1.0;
  }

  lemma {:induction false} ForwardNonNegative(readings: seq<real>, from: nat, to: nat)
    requires from < to <= |readings|
    ensures Forward(readings, from, to) >= 0.0
  {
    if from + 1 < to {
      ForwardNonNegative(readings, from, to - 1);
    }
  }

  lemma {:induction false} CountAtMost(l: Limits, readings: seq<real>, from: nat, to: nat)
    requires Valid(l) && from <= to <= |readings|
    ensures CountAllowed(l, readings, from, to) <= to - from
  {
    if from < to {
      CountAtMost(l, readings, from, to - 1);
    }
  }

  /** A new principal gets its whole burst, whatever the readings. */
  lemma BurstIsGranted(l: Limits, readings: seq<real>, k: nat)
    requires Valid(l) && k < |readings| && k < l.burst
    ensures VerdictAt(l, readings, k).Allowed?
  {
    hide Refill, Rate, Forward, CountAllowed, VerdictAt;
    if VerdictAt(l, readings, k).Refused? {
      var from := RefusalIsNecessary(l, readings, k);
      CountAtMost(l, readings, from, k);
      ForwardNonNegative(readings, from, k + 1);
      RefillNonNegative(l, Forward(readings, from, k + 1));
      assert false;
    }
  }

  lemma RefillNonNegative(l: Limits, seconds: real)
    requires Valid(l) && seconds >= 0.0
    ensures Refill(l, seconds) >= 0.0
  {
  }

  /** Each reading is at least 60 seconds over the rate after the one before. */
  predicate Paced(l: Limits, readings: seq<real>) {
    forall i | 0 < i < |readings| :: l.requestsPerMinute as real * (readings[i] - readings[i - 1]) >= 60.0
  }

  lemma {:induction false} PacedForward(l: Limits, readings: seq<real>, from: nat, to: nat)
    requires Valid(l) && from < to <= |readings| && Paced(l, readings)
    ensures Refill(l, Forward(readings, from, to)) >= (to - 1 - from) as real
  {
    if from + 1 < to {
      hide Refill, Rate, Forward;
      PacedForward(l, readings, from, to - 1);
      var step := readings[to - 1] - readings[to - 2];
      PacedStep(l, step);
      ForwardStep(readings, from, to);
      RefillAdds(l, Forward(readings, from, to - 1), step);
    } else {
      RefillAdds(l, 0.0, 0.0);
    }
  }

  lemma ForwardStep(readings: seq<real>, from: nat, to: nat)
    requires from + 1 < to <= |readings| && readings[to - 1] > readings[to - 2]
    ensures Forward(readings, from, to) == Forward(readings, from, to - 1) + (readings[to - 1] - readings[to - 2])
  {
  }

  lemma PacedStep(l: Limits, step: real)
    requires Valid(l) && l.requestsPerMinute as real * step >= 60.0
    ensures step > 0.0 && Refill(l, step) >= 1.0
  {
    var r := l.requestsPerMinute as real;
    SignOfFactor(r, step);
    assert r / 60.0 * step == r * step / 60.0;
  }

  lemma SignOfFactor(r: real, step: real)
    requires r > 0.0 && r * step > 0.0
    ensures step > 0.0
  {
  }

  /** Calls at the configured rate are never refused. */
  lemma PacedCallsAreAllowed(l: Limits, readings: seq<real>, k: nat)
    requires Valid(l) && Paced(l, readings) && k < |readings|
    ensures VerdictAt(l, readings, k).Allowed?
  {
    hide Refill, Rate, Forward, CountAllowed, VerdictAt, Paced;
    if VerdictAt(l, readings, k).Refused? {
      var from := RefusalIsNecessary(l, readings, k);
      CountAtMost(l, readings, from, k);
      PacedForward(l, readings, from, k + 1);
      assert false;
    }
  }

  /** With readings in order, a minute holds at most the burst and the calls of a minute. */
  lemma MinuteIsBounded(l: Limits, readings: seq<real>, from: nat, to: nat)
    requires Valid(l) && from < to <= |readings| && InOrder(readings) && readings[to - 1] - readings[from] <= 60.0
    ensures CountAllowed(l, readings, from, to) <= l.burst + l.requestsPerMinute
  {
    hide CountAllowed, InOrder;
    WindowIsBounded(l, readings, from, to);
    RefillOfMinute(l, readings[to - 1] - readings[from]);
  }

  lemma RefillOfMinute(l: Limits, seconds: real)
    requires Valid(l) && seconds <= 60.0
    ensures Refill(l, seconds) <= l.requestsPerMinute as real
  {
    var r := l.requestsPerMinute as real;
    assert r / 60.0 * seconds == r * seconds / 60.0;
    assert r * seconds <= r * 60.0;
  }

  // ---------------------------------------------------------------- readings out of order

  /** No reading is more than `lag` behind the one before it. */
  predicate StepsBackWithin(readings: seq<real>, lag: real) {
    forall i | 0 < i < |readings| :: readings[i - 1] - readings[i] <= lag
  }

  predicate Within(readings: seq<real>, from: nat, to: nat, start: real, length: real)
    requires from <= to <= |readings|
  {
    forall i | from <= i < to :: start <= readings[i] <= start + length
  }

  /** The calls `from`, ..., `to - 1`, all read within `length` seconds, keep the bound of such a window. */
  predicate WindowKept(l: Limits, readings: seq<real>, from: nat, to: nat, start: real, length: real)
    requires Valid(l) && from < to <= |readings|
  {
    Within(readings, from, to, start, length) ==>
      CountAllowed(l, readings, from, to) as real <= l.burst as real + Refill(l, length)
  }

  /** Every window of every sequence of readings with steps back of at most `lag` keeps its bound. */
  ghost predicate Tolerates(l: Limits, lag: real)
    requires Valid(l)
  {
    forall readings: seq<real>, from: nat, to: nat, start: real, length: real
      | from < to <= |readings| && StepsBackWithin(readings, lag) ::
      WindowKept(l, readings, from, to, start, length)
  }

  lemma {:induction false} AdjacentInOrder(readings: seq<real>, i: nat, j: nat)
    requires i < j < |readings| && StepsBackWithin(readings, 0.0)
    ensures readings[i] <= readings[j]
  {
    if i + 1 < j {
      AdjacentInOrder(readings, i, j - 1);
    }
  }

  lemma RefillGrows(l: Limits, a: real, b: real)
    requires Valid(l) && a <= b
    ensures Refill(l, a) <= Refill(l, b)
  {
  }

  lemma OrderedWindowKept(l: Limits, readings: seq<real>, from: nat, to: nat, start: real, length: real)
    requires Valid(l) && from < to <= |readings| && StepsBackWithin(readings, 0.0)
    ensures WindowKept(l, readings, from, to, start, length)
  {
    hide Refill, CountAllowed, StepsBackWithin;
    if Within(readings, from, to, start, length) {
      forall i, j | 0 <= i < j < |readings|
        ensures readings[i] <= readings[j]
      {
        AdjacentInOrder(readings, i, j);
      }
      WindowIsBounded(l, readings, from, to);
      RefillGrows(l, readings[to - 1] - readings[from], length);
    }
  }

  function Zeros(n: nat): (zeros: seq<real>)
    ensures |zeros| == n && forall i | 0 <= i < n :: zeros[i] == 0.0
  {
    if n == 0 then [] else Zeros(n - 1) + [0.0]
  }

  /** The burst at once, then three calls of which the second reads the clock `back` seconds early. */
  function Stale(l: Limits, late: real, back: real): seq<real>
    requires Valid(l)
  {
    Zeros(l.burst) + [late, late - back, late]
  }

  lemma {:induction false} Drained(l: Limits, readings: seq<real>, n: nat)
    requires Valid(l) && n <= l.burst <= |readings| && forall i | 0 <= i < l.burst :: readings[i] == 0.0
    ensures After(l, readings[..n]) == if n == 0 then None else Some(Bucket((l.burst - n) as real, 0.0))
    ensures CountAllowed(l, readings, 0, n) == n
  {
    hide Rate;
    if n > 0 {
      Drained(l, readings, n - 1);
      assert readings[..n][..n - 1] == readings[..n - 1];
      assert 0.0 * Rate(l) == 0.0;
    }
  }

  lemma QuotientTimes(x: real, k: real)
    requires k > 0.0
    ensures x / k * k == x
  {
  }

  /** With `part` of a token missing after the burst, one early reading and a good one bring it back twice. */
  lemma StaleCallIsAllowed(l: Limits, late: real, back: real, part: real)
    requires Valid(l) && 0.0 < back <= late && 0.0 < part <= 0.5
    requires Refill(l, late) == 1.0 - part && Refill(l, back) == part
    ensures var readings := Stale(l, late, back); CountAllowed(l, readings, 0, |readings|) == l.burst + 1
  {
    hide CountAllowed, After, Admit, Refill;
    var n, r := l.burst, Stale(l, late, back);
    Drained(l, r, n);
    OneMore(l, r, n);
    OneMore(l, r, n + 1);
    OneMore(l, r, n + 2);
    NoRefill(l);
    Gained(l, 0.0, 0.0, late, late, 1.0 - part);
    Gained(l, 1.0 - part, late, late - back, 0.0, 0.0);
    Gained(l, 1.0 - part, late - back, late, back, part);
  }

  lemma NoRefill(l: Limits)
    ensures Refill(l, 0.0) == 0.0
  {
  }

  /** A call `step` seconds after the last finds `gain` more tokens; at most one token comes of it. */
  lemma Gained(l: Limits, tokens: real, before: real, now: real, step: real, gain: real)
    requires Valid(l) && step == (if now - before > 0.0 then now - before else 0.0)
    requires Refill(l, step) == gain && tokens + gain <= 1.0
    ensures var (b, v) := Admit(l, Some(Bucket(tokens, before)), now);
      && (v.Allowed? <==> tokens + gain == 1.0)
      && b == Bucket(if tokens + gain == 1.0 then 0.0 else tokens + gain, now)
  {
    hide Rate, Ceil;
  }

  lemma Positive(x: real, k: real)
    requires x > 0.0 && k > 0.0
    ensures x / k > 0.0
  {
  }

  lemma OneMore(l: Limits, readings: seq<real>, n: nat)
    requires Valid(l) && n < |readings|
    ensures After(l, readings[..n + 1]) == Some(Admit(l, After(l, readings[..n]), readings[n]).0)
    ensures CountAllowed(l, readings, 0, n + 1)
         == CountAllowed(l, readings, 0, n) + if Admit(l, After(l, readings[..n]), readings[n]).1.Allowed? then 1 else 0
  {
    hide Admit;
    assert readings[..n + 1][..n] == readings[..n];
  }

  /** The bound of a window survives readings that step back by at most `lag` exactly when `lag` is zero. */
  lemma OnlyOrderIsTolerated(l: Limits, lag: real)
    requires Valid(l) && lag >= 0.0
    ensures Tolerates(l, lag) <==> lag == 0.0
  {
    hide Refill, CountAllowed, Rate, StepsBackWithin;
    if lag == 0.0 {
      forall readings: seq<real>, from: nat, to: nat, start: real, length: real
        | from < to <= |readings| && StepsBackWithin(readings, lag)
        ensures WindowKept(l, readings, from, to, start, length)
      {
        OrderedWindowKept(l, readings, from, to, start, length);
      }
    } else {
      var part := StaleReadingBreaksWindow(l, lag);
    }
  }

  /**
   A stale reading sets the bucket's time back and the next call is credited twice: for any tolerance a
   window that holds one call too many.
   */
  lemma StaleReadingBreaksWindow(l: Limits, lag: real) returns (part: real)
    requires Valid(l) && lag > 0.0
    ensures 0.0 < part <= 0.5
    ensures var late := (1.0 - part) / Rate(l); var readings := Stale(l, late, part / Rate(l));
      && StepsBackWithin(readings, lag) && !WindowKept(l, readings, 0, |readings|, 0.0, late)
  {
    hide CountAllowed, Rate;
    var rate := Rate(l);
    part := if rate * lag < 0.5 then rate * lag else 0.5;
    var late, back := (1.0 - part) / rate, part / rate;
    assert rate * lag > 0.0;
    assert back <= lag by { QuotientAtMost(part, rate, lag); }
    assert back <= late by { QuotientGrows(part, 1.0 - part, rate); }
    Positive(part, rate);
    QuotientTimes(1.0 - part, rate);
    QuotientTimes(part, rate);
    assert Refill(l, late) == 1.0 - part && Refill(l, back) == part;
    StaleCallIsAllowed(l, late, back, part);
  }

  lemma QuotientAtMost(x: real, k: real, y: real)
    requires k > 0.0 && x <= k * y
    ensures x / k <= y
  {
    QuotientGrows(x, k * y, k);
  }

  lemma QuotientGrows(x: real, y: real, k: real)
    requires k > 0.0 && x <= y
    ensures x / k <= y / k
  {
  }

  /** The verdict of a call `s` whole seconds after one at `now`, with none in between. */
  function RetryVerdict(l: Limits, readings: seq<real>, now: real, s: int): Verdict
    requires Valid(l)
  {
    VerdictAt(l, readings + [now, now + s as real], |readings| + 1)
  }

  /** The promised wait is exactly long enough: allowed then, and refused after any fewer whole seconds. */
  lemma RetryAfterIsExact(l: Limits, readings: seq<real>, now: real, wait: int)
    requires Valid(l) && Admit(l, After(l, readings), now).1 == Refused(wait)
    ensures RetryVerdict(l, readings, now, wait).Allowed?
    ensures forall s: int | 1 <= s < wait :: RetryVerdict(l, readings, now, s).Refused?
  {
    hide After, VerdictAt, Rate, Ceil;
    var refused := Admit(l, After(l, readings), now).0;
    forall s: int | 1 <= s <= wait
      ensures RetryVerdict(l, readings, now, s).Allowed? <==> s == wait
    {
      CallsAppended(l, readings, now, now + s as real);
      WaitSuffices(l, refused, now, wait, s);
    }
  }

  lemma CallsAppended(l: Limits, readings: seq<real>, a: real, b: real)
    requires Valid(l)
    ensures VerdictAt(l, readings + [a, b], |readings| + 1)
         == Admit(l, Some(Admit(l, After(l, readings), a).0), b).1
  {
    var all := readings + [a, b];
    assert all[..|readings| + 1] == readings + [a];
    assert (readings + [a])[..|readings|] == readings;
  }

  lemma WaitSuffices(l: Limits, b: Bucket, now: real, wait: int, s: int)
    requires Valid(l) && b.updatedAt == now && b.tokens < 1.0
    requires wait == (var w := Ceil((1.0 - b.tokens) / Rate(l)); if w > 1 then w else 1)
    requires 1 <= s <= wait
    ensures Refilled(l, Some(b), now + s as real).tokens >= 1.0 <==> s == wait
  {
    hide Ceil, Rate, Refilled;
    var rate, full := Rate(l), l.burst as real;
    var need := (1.0 - b.tokens) / rate;
    RefilledAfter(l, b, now, s);
    assert need * rate == 1.0 - b.tokens;
    if s == wait {
      ScaleBy(need, s as real, rate);
    } else {
      assert s <= Ceil(need) - 1;
      CeilIsLeast(need, s);
      ScaleStrictly(s as real, need, rate);
    }
  }

  lemma CeilIsLeast(x: real, s: int)
    requires s <= Ceil(x) - 1
    ensures s as real < x
  {
  }

  lemma RefilledAfter(l: Limits, b: Bucket, now: real, s: int)
    requires s >= 1 && b.updatedAt == now
    ensures var gained := b.tokens + s as real * Rate(l);
      Refilled(l, Some(b), now + s as real).tokens == if gained < l.burst as real then gained else l.burst as real
  {
    hide Rate;
    assert now + s as real - now == s as real;
  }

  lemma ScaleBy(a: real, b: real, k: real)
    requires a <= b && k > 0.0
    ensures a * k <= b * k
  {
  }

  lemma ScaleStrictly(a: real, b: real, k: real)
    requires a < b && k > 0.0
    ensures a * k < b * k
  {
  }

  // ---------------------------------------------------------------- many principals

  datatype Call = Call(who: Principal, now: real)

  /** The buckets after a sequence of calls by any principals. */
  function Buckets(l: Limits, calls: seq<Call>): map<Principal, Bucket>
    requires Valid(l)
  {
    if calls == [] then map[]
    else
      var before, c := Buckets(l, calls[..|calls| - 1]), calls[|calls| - 1];
      before[c.who := Admit(l, Lookup(before, c.who), c.now).0]
  }

  function Lookup(buckets: map<Principal, Bucket>, who: Principal): Option<Bucket> {
    if who in buckets then Some(buckets[who]) else None
  }

  function ReadingsOf(calls: seq<Call>, who: Principal): seq<real> {
    if calls == [] then []
    else
      var c := calls[|calls| - 1];
      ReadingsOf(calls[..|calls| - 1], who) + if c.who == who then [c.now] else []
  }

  /** A principal's bucket is what it would be if nobody else called. */
  lemma {:induction false} PrincipalsAreIndependent(l: Limits, calls: seq<Call>, who: Principal)
    requires Valid(l)
    ensures Lookup(Buckets(l, calls), who) == After(l, ReadingsOf(calls, who))
  {
    hide Admit;
    if calls != [] {
      var n := |calls| - 1;
      PrincipalsAreIndependent(l, calls[..n], who);
      var before := ReadingsOf(calls[..n], who);
      if calls[n].who == who {
        assert (before + [calls[n].now])[..|before|] == before;
      } else {
        assert before + [] == before;
      }
    }
  }

  class PrincipalRateLimiter {
    const limits: Limits
    var buckets: map<Principal, Bucket>

    constructor (limits: Limits)
      ensures this.limits == limits && buckets == map[]
    {
      this.limits, buckets := limits, map[];
    }

    /** The constructor's check; null stands for the `ValueError`. */
    static method Create(requestsPerMinute: int, burst: int) returns (limiter: PrincipalRateLimiter?)
      ensures limiter == null <==> !Valid(Limits(requestsPerMinute, burst))
      ensures limiter != null ==>
        fresh(limiter) && limiter.limits == Limits(requestsPerMinute, burst) && limiter.buckets == map[]
    {
      if requestsPerMinute < 1 || burst < 1 {
        return null;
      }
      limiter := new PrincipalRateLimiter(Limits(requestsPerMinute, burst));
    }

    method Allow(who: Principal, now: real) returns (verdict: Verdict)
      requires Valid(limits)
      modifies this`buckets
      ensures (buckets, verdict) == (var r := Admit(limits, Lookup(old(buckets), who), now);
                                     (old(buckets)[who := r.0], r.1))
    {
      if who !in buckets {
        buckets := buckets[who := Bucket(limits.burst as real, now)];
      }
      var bucket := buckets[who];
      var elapsed := if now - bucket.updatedAt > 0.0 then now - bucket.updatedAt else 0.0;
      assert 0.0 * Rate(limits) == 0.0;
      var tokens := bucket.tokens + elapsed * Rate(limits);
      bucket := Bucket(if tokens < limits.burst as real then tokens else limits.burst as real, now);
      buckets := buckets[who := bucket];
      if bucket.tokens >= 1.0 {
        buckets := buckets[who := bucket.(tokens := bucket.tokens - 1.0)];
        assert buckets == old(buckets)[who := Admit(limits, Lookup(old(buckets), who), now).0];
        return Allowed;
      }
      var wait := Ceil((1.0 - bucket.tokens) / Rate(limits));
      verdict := Refused(if wait > 1 then wait else 1);
    }
  }
}
