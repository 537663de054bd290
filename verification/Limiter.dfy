/** The token bucket limiter (internal/ratelimit/limiter.go). Times are seconds since some moment. */
module Limiter {

  datatype Bucket = Bucket(tokens: real, lastSeen: real)

  /** What a key may spend: tokens per second and the most it can save up. */
  datatype Terms = Terms(rate: real, burst: real)

  function Least(a: real, b: real): real { if a <= b then a else b }

  /** The allowance of a key at a time; a key never seen has it in full. */
  function Allowance(t: Terms, b: map<string, Bucket>, key: string, now: real): real
  {
    if key in b then Refilled(t, b[key], now) else t.burst
  }

  function Refilled(t: Terms, b: Bucket, now: real): real
  {
    Least(b.tokens + Earned(now - b.lastSeen, t.rate), t.burst)
  }

  /** The tokens that flow in over a time. */
  function Earned(time: real, rate: real): real { time * rate }

  /** One call against a limiter that never forgets a key: whether it is allowed, and what is left. */
  function Spend(t: Terms, b: map<string, Bucket>, key: string, now: real): (bool, map<string, Bucket>)
  {
    var left := Allowance(t, b, key, now);
    if left < 1.0 then (false, b[key := Bucket(left, now)]) else (true, b[key := Bucket(left - 1.0, now)])
  }

  /** Nobody owes tokens and no bucket was touched after now. */
  ghost predicate Sane(b: map<string, Bucket>, t: Terms, now: real)
  {
    forall k :: k in b ==> 0.0 <= b[k].tokens <= t.burst && b[k].lastSeen <= now
  }

  /** The swept buckets agree with those never swept, but for keys idle so long that both stand for a
      full allowance. */
  ghost predicate SweptOf(swept: map<string, Bucket>, all: map<string, Bucket>, idleTTL: real, now: real)
  {
    (forall k :: k in swept ==> k in all && swept[k] == all[k]) &&
    (forall k :: k in all && k !in swept ==> now - all[k].lastSeen > idleTTL)
  }

  lemma EarnedIs(time: real, rate: real)
    ensures Earned(time, rate) == time * rate
  {
  }

  lemma EarnedGrows(a: real, b: real, rate: real)
    requires a <= b && rate >= 0.0
    ensures Earned(a, rate) <= Earned(b, rate) && Earned(0.0, rate) == 0.0
  {
    var d := b - a;
    assert d * rate >= 0.0;
    assert b * rate == a * rate + d * rate by {
      assert b == a + d;
    }
  }

  lemma EarnedAdds(a: real, b: real, rate: real)
    ensures Earned(a + b, rate) == Earned(a, rate) + Earned(b, rate)
  {
  }

  /** A bucket idle for the time it takes to fill up is full. */
  lemma IdleIsFull(t: Terms, b: Bucket, now: real, idleTTL: real)
    requires b.tokens >= 0.0 && t.rate >= 0.0 && Earned(idleTTL, t.rate) >= t.burst && now - b.lastSeen > idleTTL
    ensures Refilled(t, b, now) == t.burst
  {
    hide Earned;
    EarnedGrows(idleTTL, now - b.lastSeen, t.rate);
  }

  /** Sweeping is invisible: the allowance is the same. */
  lemma SameAllowance(t: Terms, swept: map<string, Bucket>, all: map<string, Bucket>, idleTTL: real, now: real,
                      key: string)
    requires SweptOf(swept, all, idleTTL, now) && Sane(all, t, now) && t.rate >= 0.0
    requires Earned(idleTTL, t.rate) >= t.burst
    ensures Allowance(t, swept, key, now) == Allowance(t, all, key, now)
  {
    if key in all && key !in swept { IdleIsFull(t, all[key], now, idleTTL); }
  }

  /** A swept bucket stays negligible as time passes. */
  lemma StillSwept(swept: map<string, Bucket>, all: map<string, Bucket>, idleTTL: real, now: real, later: real)
    requires SweptOf(swept, all, idleTTL, now) && now <= later
    ensures SweptOf(swept, all, idleTTL, later)
  {
  }

  lemma RefilledSane(t: Terms, b: Bucket, now: real)
    requires 0.0 <= b.tokens <= t.burst && b.lastSeen <= now && t.rate >= 0.0
    ensures b.tokens <= Refilled(t, b, now) <= t.burst
  {
    hide Earned;
    EarnedGrows(0.0, now - b.lastSeen, t.rate);
  }

  class Limiter {
    const terms: Terms
    const idleTTL: real
    var buckets: map<string, Bucket>
    /** The buckets of a limiter given the same calls that never sweeps. */
    ghost var all: map<string, Bucket>
    ghost var clock: real

    ghost predicate Valid()
      reads this
    {
      terms.rate > 0.0 && terms.burst > 0.0 && Sane(all, terms, clock) &&
      (Earned(idleTTL, terms.rate) >= terms.burst ==> SweptOf(buckets, all, idleTTL, clock)) &&
        Sane(buckets, terms, clock)
    }

    /** New (lines 49-66), for a positive rate. */
    constructor (perSecond: real, burst: real, idleTTL: real)
      requires perSecond > 0.0
      ensures Valid() && buckets == map[] && all == map[]
      ensures terms == Terms(perSecond, if burst <= 0.0 then perSecond else burst)
      ensures this.idleTTL == if idleTTL <= 0.0 then 600.0 else idleTTL
    {
      terms := Terms(perSecond, if burst <= 0.0 then perSecond else burst);
      this.idleTTL := if idleTTL <= 0.0 then 600.0 else idleTTL;
      buckets, all, clock := map[], map[], 0.0;
    }

    /** Allow (lines 70-97). With buckets kept at least as long as they take to fill, the answer is that
        of a limiter that never sweeps; a refused call is told a wait after which the tokens are there. */
    method Allow(key: string, now: real) returns (ok: bool, wait: real)
      requires Valid() && clock <= now
      modifies this
      ensures Valid() && clock == now && all == Spend(terms, old(all), key, now).1
      ensures ok <==> Allowance(terms, old(buckets), key, now) >= 1.0
      ensures key in buckets
      ensures buckets[key] == Bucket(Allowance(terms, old(buckets), key, now) - if ok then 1.0 else 0.0, now)
      ensures Earned(idleTTL, terms.rate) >= terms.burst ==>
        ok == Spend(terms, old(all), key, now).0 && buckets[key] == all[key]
      ensures ok ==> wait == 0.0
      ensures !ok ==> (buckets[key].tokens + Earned(wait, terms.rate) >= 1.0 && wait > 0.0)
    {
      hide Earned, Sane, SweptOf, Refilled, Keeps;
      ghost var before := buckets;
      SpendKeeps(terms, all, key, clock, now);
      var b := Find(key, now);
      Answers(terms, before, buckets, all, key, idleTTL, clock, now, b);
      all, clock := Spend(terms, all, key, now).1, now;
      var tokens := Refill(b, now);
      if tokens < 1.0 {
        ok := false;
        wait := Wait(tokens, terms.rate);
      } else {
        ok, wait := true, 0.0;
        tokens := tokens - 1.0;
      }
      buckets := buckets[key := Bucket(tokens, now)];
    }

    /** Lines 79-84: the key's bucket, a new one if there is none, in which case idle ones are swept. */
    method Find(key: string, now: real) returns (b: Bucket)
      modifies `buckets
      ensures Keeps(old(buckets), buckets, key, idleTTL, now)
      ensures b == if key in old(buckets) then old(buckets)[key] else Bucket(terms.burst, now)
    {
      if key in buckets {
        b := buckets[key];
      } else {
        b := Bucket(terms.burst, now);
        buckets := buckets[key := b];
        buckets := Sweep(buckets, now, idleTTL);
      }
    }

    /** Lines 86-89. */
    method Refill(b: Bucket, now: real) returns (tokens: real)
      ensures tokens == Refilled(terms, b, now)
    {
      hide Earned;
      tokens := b.tokens + Earned(now - b.lastSeen, terms.rate);
      if tokens > terms.burst { tokens := terms.burst; }
    }
  }

  /** Other keys' buckets are as before or were swept. */
  ghost predicate Keeps(before: map<string, Bucket>, after: map<string, Bucket>, key: string, idleTTL: real, now: real)
  {
    (forall k :: k in after && k != key ==> k in before && after[k] == before[k]) &&
    (forall k :: k in before && k != key && k !in after ==> now - before[k].lastSeen > idleTTL)
  }

  /** The answer to one call, and what is kept after it. */
  lemma Answers(t: Terms, before: map<string, Bucket>, after: map<string, Bucket>, all: map<string, Bucket>,
                key: string, idleTTL: real, clock: real, now: real, b: Bucket)
    requires t.rate > 0.0 && t.burst > 0.0 && clock <= now && Sane(all, t, clock) && Sane(before, t, clock)
    requires Earned(idleTTL, t.rate) >= t.burst ==> SweptOf(before, all, idleTTL, clock)
    requires Keeps(before, after, key, idleTTL, now)
    requires b == if key in before then before[key] else Bucket(t.burst, now)
    ensures Refilled(t, b, now) == Allowance(t, before, key, now)
    ensures Earned(idleTTL, t.rate) >= t.burst ==> Allowance(t, before, key, now) == Allowance(t, all, key, now)
    ensures var left := Refilled(t, b, now);
      var bucket := Bucket(if left < 1.0 then left else left - 1.0, now);
      Sane(after[key := bucket], t, now) &&
      (Earned(idleTTL, t.rate) >= t.burst ==> SweptOf(after[key := bucket], Spend(t, all, key, now).1, idleTTL, now))
  {
    hide Earned;
    NewKeyFull(t, now, now);
    RefilledSane(t, b, now);
    if Earned(idleTTL, t.rate) >= t.burst {
      StillSwept(before, all, idleTTL, clock, now);
      SameAllowance(t, before, all, idleTTL, now, key);
    }
  }

  /** Line 93: the time until a token is there, cut to whole nanoseconds, plus a millisecond. */
  method Wait(tokens: real, rate: real) returns (wait: real)
    requires tokens < 1.0 && rate > 0.0
    ensures wait > 0.0 && tokens + Earned(wait, rate) >= 1.0
  {
    var exact := (1.0 - tokens) / rate;
    var nanos := (exact * 1000000000.0).Floor;
    wait := nanos as real / 1000000000.0 + 0.001;
    assert exact * rate == 1.0 - tokens;
    assert wait >= exact;
    EarnedGrows(exact, wait, rate);
    assert exact > 0.0 by {
      if exact <= 0.0 { EarnedGrows(exact, 0.0, rate); }
    }
  }

  /** sweep (lines 101-107). */
  method Sweep(buckets: map<string, Bucket>, now: real, idleTTL: real) returns (kept: map<string, Bucket>)
    ensures forall k :: k in kept <==> k in buckets && now - buckets[k].lastSeen <= idleTTL
    ensures forall k :: k in kept ==> kept[k] == buckets[k]
  {
    kept := buckets;
    var rest := buckets.Keys;
    while rest != {}
      invariant rest <= buckets.Keys
      invariant forall k :: k in kept <==> k in buckets && (k in rest || now - buckets[k].lastSeen <= idleTTL)
      invariant forall k :: k in kept ==> kept[k] == buckets[k]
      decreases |rest|
    {
      var k :| k in rest;
      if now - buckets[k].lastSeen > idleTTL { kept := kept - {k}; }
      rest := rest - {k};
    }
  }

  lemma SpendKeeps(t: Terms, b: map<string, Bucket>, key: string, now: real, later: real)
    requires Sane(b, t, now) && now <= later && t.rate > 0.0 && t.burst > 0.0
    ensures Sane(Spend(t, b, key, later).1, t, later)
  {
    if key in b { RefilledSane(t, b[key], later); }
  }

  // ---------------------------------------------------------------------------------------------
  // How much one key can spend
  // ---------------------------------------------------------------------------------------------

  /** The bucket of one key before its calls at the given times, and how many of them are allowed. */
  function After(t: Terms, b: Bucket, times: seq<real>): Bucket
  {
    if times == [] then b
    else
      var now := times[|times| - 1];
      var left := Refilled(t, After(t, b, times[..|times| - 1]), now);
      Bucket(if left < 1.0 then left else left - 1.0, now)
  }

  function Allowed(t: Terms, b: Bucket, times: seq<real>): nat
  {
    if times == [] then 0
    else
      Allowed(t, b, times[..|times| - 1]) +
      if Refilled(t, After(t, b, times[..|times| - 1]), times[|times| - 1]) < 1.0 then 0 else 1
  }

  ghost predicate InOrder(since: real, times: seq<real>)
  {
    (forall k :: 0 <= k < |times| ==> since <= times[k]) && forall i, j :: 0 <= i < j < |times| ==> times[i] <= times[j]
  }

  function LastOf(since: real, times: seq<real>): real
  {
    if times == [] then since else times[|times| - 1]
  }

  /** Whatever is allowed is paid for by what was saved up and what flowed in. */
  lemma {:induction false} Budget(t: Terms, b: Bucket, times: seq<real>)
    requires t.rate > 0.0 && 0.0 <= b.tokens <= t.burst && InOrder(b.lastSeen, times)
    ensures 0.0 <= After(t, b, times).tokens <= t.burst && After(t, b, times).lastSeen == LastOf(b.lastSeen, times)
    ensures Allowed(t, b, times) as real + After(t, b, times).tokens <=
      b.tokens + Earned(LastOf(b.lastSeen, times) - b.lastSeen, t.rate)
  {
    hide Earned;
    if times == [] {
      EarnedGrows(0.0, 0.0, t.rate);
    } else {
      var shorter := times[..|times| - 1];
      Budget(t, b, shorter);
      var before, now := After(t, b, shorter), times[|times| - 1];
      RefilledSane(t, before, now);
      EarnedAdds(before.lastSeen - b.lastSeen, now - before.lastSeen, t.rate);
    }
  }

  lemma WindowEarned(t: Terms, b: Bucket, times: seq<real>)
    requires t.rate > 0.0 && 0.0 <= b.tokens <= t.burst && InOrder(b.lastSeen, times) && times != []
    ensures Allowed(t, b, times) as real <= t.burst + Earned(times[|times| - 1] - times[0], t.rate)
  {
    hide Earned, After, Allowed;
    var first := times[0];
    var full := Bucket(Refilled(t, b, first), first);
    RefilledSane(t, b, first);
    FirstCall(t, b, full, times);
    Budget(t, full, times);
  }

  /** In any window no more than the burst plus what flows in over the window is allowed, whatever came
      before: `b` is the bucket before the window's first call. */
  lemma WindowBound(t: Terms, b: Bucket, times: seq<real>)
    requires t.rate > 0.0 && 0.0 <= b.tokens <= t.burst && InOrder(b.lastSeen, times) && times != []
    ensures Allowed(t, b, times) as real <= t.burst + (times[|times| - 1] - times[0]) * t.rate
  {
    hide Earned, Allowed, InOrder;
    WindowEarned(t, b, times);
    EarnedIs(times[|times| - 1] - times[0], t.rate);
  }

  /** A bucket refilled up to the first call behaves the same. */
  lemma {:induction false} FirstCall(t: Terms, b: Bucket, full: Bucket, times: seq<real>)
    requires t.rate >= 0.0 && times != [] && full == Bucket(Refilled(t, b, times[0]), times[0])
    requires full.tokens <= t.burst
    ensures After(t, b, times) == After(t, full, times) && Allowed(t, b, times) == Allowed(t, full, times)
  {
    var shorter := times[..|times| - 1];
    if shorter != [] {
      FirstCall(t, b, full, shorter);
    } else {
      EarnedGrows(0.0, 0.0, t.rate);
      assert Refilled(t, full, times[0]) == full.tokens;
    }
  }

  /** What is left of `tokens`, last counted at `since`, after calls answered as in `grants`: tokens flow in
      up to the burst, and each call that is allowed costs one. */
  ghost function Ledger(t: Terms, tokens: real, since: real, times: seq<real>, grants: seq<bool>): real
    requires |grants| == |times|
  {
    if times == [] then tokens
    else
      var n := |times| - 1;
      var saved := Ledger(t, tokens, since, times[..n], grants[..n]) +
                   Earned(times[n] - (if n == 0 then since else times[n - 1]), t.rate);
      (if saved <= t.burst then saved else t.burst) - (if grants[n] then 1.0 else 0.0)
  }

  /** No call is allowed without a token to pay for it. */
  ghost predicate Affords(t: Terms, tokens: real, since: real, times: seq<real>, grants: seq<bool>)
    requires |grants| == |times|
  {
    forall k :: 0 <= k <= |times| ==> Ledger(t, tokens, since, times[..k], grants[..k]) >= 0.0
  }

  function Count(grants: seq<bool>): nat
  {
    if grants == [] then 0 else Count(grants[..|grants| - 1]) + if grants[|grants| - 1] then 1 else 0
  }

  lemma AffordsShorter(t: Terms, tokens: real, since: real, times: seq<real>, grants: seq<bool>)
    requires |grants| == |times| > 0 && Affords(t, tokens, since, times, grants)
    ensures Affords(t, tokens, since, times[..|times| - 1], grants[..|times| - 1])
    ensures Ledger(t, tokens, since, times, grants) >= 0.0
  {
    var n := |times| - 1;
    assert times[..|times|] == times && grants[..|times|] == grants;
    forall k | 0 <= k <= n
      ensures Ledger(t, tokens, since, times[..n][..k], grants[..n][..k]) >= 0.0
    {
      assert times[..n][..k] == times[..k] && grants[..n][..k] == grants[..k];
    }
  }

  /** One more call in the ledger. */
  lemma LedgerStep(t: Terms, tokens: real, since: real, times: seq<real>, grants: seq<bool>)
    requires |grants| == |times| > 0
    ensures var n := |times| - 1;
      Ledger(t, tokens, since, times, grants) ==
        Least(Ledger(t, tokens, since, times[..n], grants[..n]) + Earned(times[n] - LastOf(since, times[..n]), t.rate),
               t.burst) - (if grants[n] then 1.0 else 0.0)
  {
    hide Earned;
  }

  /** ... and in the bucket. */
  lemma AfterStep(t: Terms, b: Bucket, times: seq<real>)
    requires times != [] && t.rate > 0.0 && 0.0 <= b.tokens <= t.burst && InOrder(b.lastSeen, times)
    ensures var n := |times| - 1;
      var left := Least(After(t, b, times[..n]).tokens + Earned(times[n] - LastOf(b.lastSeen, times[..n]), t.rate),
                        t.burst);
      left == Refilled(t, After(t, b, times[..n]), times[n]) &&
      After(t, b, times).tokens == (if left < 1.0 then left else left - 1.0) &&
      Allowed(t, b, times) == Allowed(t, b, times[..n]) + if left < 1.0 then 0 else 1
  {
    hide Earned, Least;
    var before := times[..|times| - 1];
    Budget(t, b, before);
    assert Refilled(t, After(t, b, before), times[|before|]) ==
           Least(After(t, b, before).tokens + Earned(times[|before|] - LastOf(b.lastSeen, before), t.rate), t.burst);
  }

  /** Spending at once whenever there is a token is never worse than holding back. */
  lemma SpendAtOnce(h: real, theirs: nat, g: real, ours: nat, earned: real, burst: real, grant: bool)
    requires theirs <= ours && theirs as real + h <= ours as real + g
    requires Least(h + earned, burst) - (if grant then 1.0 else 0.0) >= 0.0
    ensures var left := Least(g + earned, burst);
      var ours', g' := ours + (if left < 1.0 then 0 else 1), if left < 1.0 then left else left - 1.0;
      var theirs', h' := theirs + (if grant then 1 else 0), Least(h + earned, burst) - if grant then 1.0 else 0.0;
      theirs' <= ours' && theirs' as real + h' <= ours' as real + g'
  {
  }

  /** Nothing is withheld: no way of answering the calls that pays for each it allows allows more. */
  lemma {:induction false} NothingWithheld(t: Terms, b: Bucket, times: seq<real>, grants: seq<bool>)
    requires t.rate > 0.0 && 0.0 <= b.tokens <= t.burst && InOrder(b.lastSeen, times) && |grants| == |times|
    requires Affords(t, b.tokens, b.lastSeen, times, grants)
    ensures Count(grants) <= Allowed(t, b, times)
    ensures Count(grants) as real + Ledger(t, b.tokens, b.lastSeen, times, grants) <=
      Allowed(t, b, times) as real + After(t, b, times).tokens
  {
    if times != [] {
      var n := |times| - 1;
      AffordsShorter(t, b.tokens, b.lastSeen, times, grants);
      LedgerStep(t, b.tokens, b.lastSeen, times, grants);
      hide Affords, Earned, Least, Ledger, After, Refilled, Allowed;
      NothingWithheld(t, b, times[..n], grants[..n]);
      AfterStep(t, b, times);
      SpendAtOnce(Ledger(t, b.tokens, b.lastSeen, times[..n], grants[..n]), Count(grants[..n]),
                  After(t, b, times[..n]).tokens, Allowed(t, b, times[..n]),
                  Earned(times[n] - LastOf(b.lastSeen, times[..n]), t.rate), t.burst, grants[n]);
    }
  }

  /** How the calls are answered. */
  ghost function AnswersTo(t: Terms, b: Bucket, times: seq<real>): (grants: seq<bool>)
    ensures |grants| == |times|
  {
    if times == [] then []
    else
      var n := |times| - 1;
      AnswersTo(t, b, times[..n]) + [Refilled(t, After(t, b, times[..n]), times[n]) >= 1.0]
  }

  /** ... and the answers given are one such way: the most that can be allowed is allowed. */
  lemma {:induction false} AnswersAfford(t: Terms, b: Bucket, times: seq<real>)
    requires t.rate > 0.0 && 0.0 <= b.tokens <= t.burst && InOrder(b.lastSeen, times)
    ensures Affords(t, b.tokens, b.lastSeen, times, AnswersTo(t, b, times))
    ensures Count(AnswersTo(t, b, times)) == Allowed(t, b, times)
    ensures Ledger(t, b.tokens, b.lastSeen, times, AnswersTo(t, b, times)) == After(t, b, times).tokens
  {
    hide Earned, Least, Refilled;
    var grants := AnswersTo(t, b, times);
    if times != [] {
      var n := |times| - 1;
      AnswersAfford(t, b, times[..n]);
      AnswersStep(t, b, times);
      forall k | 0 <= k <= |times|
        ensures Ledger(t, b.tokens, b.lastSeen, times[..k], grants[..k]) >= 0.0
      {
        if k <= n {
          assert times[..n][..k] == times[..k] && grants[..n][..k] == grants[..k];
        } else {
          assert times[..k] == times && grants[..k] == grants;
        }
      }
    }
  }

  lemma AnswersStep(t: Terms, b: Bucket, times: seq<real>)
    requires t.rate > 0.0 && 0.0 <= b.tokens <= t.burst && InOrder(b.lastSeen, times) && times != []
    requires var n := |times| - 1;
      Count(AnswersTo(t, b, times[..n])) == Allowed(t, b, times[..n]) &&
      Ledger(t, b.tokens, b.lastSeen, times[..n], AnswersTo(t, b, times[..n])) == After(t, b, times[..n]).tokens
    ensures AnswersTo(t, b, times)[..|times| - 1] == AnswersTo(t, b, times[..|times| - 1])
    ensures Count(AnswersTo(t, b, times)) == Allowed(t, b, times)
    ensures Ledger(t, b.tokens, b.lastSeen, times, AnswersTo(t, b, times)) == After(t, b, times).tokens >= 0.0
  {
    var n := |times| - 1;
    var grants := AnswersTo(t, b, times);
    assert grants[..n] == AnswersTo(t, b, times[..n]);
    LedgerStep(t, b.tokens, b.lastSeen, times, grants);
    hide Earned, Ledger, Refilled;
    AfterStep(t, b, times);
    Budget(t, b, times);
  }

  /** A client that waits as told when it is refused, and calls again, is then allowed; only a limiter that
      cannot save up a whole token ever refuses it twice, and that one always does. */
  method Retry(l: Limiter, key: string, now: real) returns (ok: bool)
    requires l.Valid() && l.clock <= now
    modifies l
    ensures l.Valid() && (ok <==> l.terms.burst >= 1.0)
  {
    hide Earned, Sane, SweptOf, Refilled, Spend;
    AllowanceWithin(l.terms, l.buckets, key, l.clock, now);
    var wait;
    ok, wait := l.Allow(key, now);
    if !ok {
      AllowanceWithin(l.terms, l.buckets, key, now, now + wait);
      WaitedLongEnough(l.terms, l.buckets[key], wait);
      ok, wait := l.Allow(key, now + wait);
    }
  }

  lemma AllowanceWithin(t: Terms, b: map<string, Bucket>, key: string, now: real, later: real)
    requires Sane(b, t, now) && now <= later && t.rate >= 0.0
    ensures Allowance(t, b, key, later) <= t.burst
  {
    if key in b { RefilledSane(t, b[key], later); }
  }

  lemma WaitedLongEnough(t: Terms, b: Bucket, wait: real)
    requires t.rate > 0.0 && b.tokens + Earned(wait, t.rate) >= 1.0
    ensures Refilled(t, b, b.lastSeen + wait) >= 1.0 <==> t.burst >= 1.0
  {
    assert (b.lastSeen + wait) - b.lastSeen == wait;
  }

  // ---------------------------------------------------------------------------------------------
  // Many keys
  // ---------------------------------------------------------------------------------------------

  datatype Call = Call(key: string, time: real)

  /** The calls of one key allowed in a stretch of calls that starts with buckets b, and the buckets
      after it. */
  function Served(t: Terms, b: map<string, Bucket>, calls: seq<Call>): map<string, Bucket>
  {
    if calls == [] then b
    else
      var c := calls[|calls| - 1];
      Spend(t, Served(t, b, calls[..|calls| - 1]), c.key, c.time).1
  }

  function Granted(t: Terms, b: map<string, Bucket>, calls: seq<Call>, key: string): nat
  {
    if calls == [] then 0
    else
      var c := calls[|calls| - 1];
      Granted(t, b, calls[..|calls| - 1], key) +
      if c.key == key && Spend(t, Served(t, b, calls[..|calls| - 1]), c.key, c.time).0 then 1 else 0
  }

  function TimesOf(calls: seq<Call>, key: string): seq<real>
  {
    if calls == [] then []
    else
      TimesOf(calls[..|calls| - 1], key) + if calls[|calls| - 1].key == key then [calls[|calls| - 1].time] else []
  }

  ghost predicate CallsInOrder(since: real, calls: seq<Call>)
  {
    (forall k :: 0 <= k < |calls| ==> since <= calls[k].time) &&
    forall i, j :: 0 <= i < j < |calls| ==> calls[i].time <= calls[j].time
  }

  function BucketOf(t: Terms, b: map<string, Bucket>, key: string, since: real): Bucket
  {
    if key in b then b[key] else Bucket(t.burst, since)
  }

  /** Keys do not disturb each other. */
  lemma {:induction false} KeysApart(t: Terms, b: map<string, Bucket>, calls: seq<Call>, key: string, since: real)
    requires t.rate > 0.0 && CallsInOrder(since, calls)
    ensures Granted(t, b, calls, key) == Allowed(t, BucketOf(t, b, key, since), TimesOf(calls, key))
    ensures BucketOf(t, Served(t, b, calls), key, since) == After(t, BucketOf(t, b, key, since), TimesOf(calls, key))
  {
    if calls != [] {
      var shorter, c := calls[..|calls| - 1], calls[|calls| - 1];
      KeysApart(t, b, shorter, key, since);
      var times := TimesOf(shorter, key);
      if c.key == key {
        assert (times + [c.time])[..|times|] == times;
        NewKeyFull(t, since, c.time);
      } else {
        assert times + [] == times;
      }
    }
  }

  lemma NewKeyFull(t: Terms, since: real, now: real)
    requires t.rate > 0.0 && since <= now
    ensures Refilled(t, Bucket(t.burst, since), now) == t.burst
  {
    hide Earned;
    EarnedGrows(0.0, now - since, t.rate);
  }

  lemma {:induction false} TimesInOrder(calls: seq<Call>, key: string, since: real)
    requires CallsInOrder(since, calls)
    ensures InOrder(since, TimesOf(calls, key))
    ensures calls == [] ==> TimesOf(calls, key) == []
    ensures calls != [] ==> forall k :: 0 <= k < |TimesOf(calls, key)| ==>
      calls[0].time <= TimesOf(calls, key)[k] <= calls[|calls| - 1].time
  {
    if calls != [] {
      TimesInOrder(calls[..|calls| - 1], key, since);
    }
  }

  lemma AllowedNothing(t: Terms, b: Bucket)
    ensures Allowed(t, b, []) == 0
  {
  }

  lemma RateEarned(t: Terms, b: map<string, Bucket>, calls: seq<Call>, key: string, since: real)
    requires t.rate > 0.0 && t.burst > 0.0 && Sane(b, t, since) && CallsInOrder(since, calls) && calls != []
    ensures Granted(t, b, calls, key) as real <= t.burst + Earned(calls[|calls| - 1].time - calls[0].time, t.rate)
  {
    hide Earned, Granted, Allowed, TimesOf;
    var start, times := BucketOf(t, b, key, since), TimesOf(calls, key);
    KeysApart(t, b, calls, key, since);
    TimesInOrder(calls, key, since);
    if times != [] {
      WindowEarned(t, start, times);
      EarnedGrows(times[|times| - 1] - times[0], calls[|calls| - 1].time - calls[0].time, t.rate);
    } else {
      AllowedNothing(t, start);
      EarnedGrows(0.0, calls[|calls| - 1].time - calls[0].time, t.rate);
    }
  }

  /** A key is allowed no more than the burst plus rate times length of any window of calls. */
  lemma RateBound(t: Terms, b: map<string, Bucket>, calls: seq<Call>, key: string, since: real)
    requires t.rate > 0.0 && t.burst > 0.0 && Sane(b, t, since) && CallsInOrder(since, calls) && calls != []
    ensures Granted(t, b, calls, key) as real <= t.burst + (calls[|calls| - 1].time - calls[0].time) * t.rate
  {
    hide Earned, Granted, Sane, CallsInOrder;
    RateEarned(t, b, calls, key, since);
    EarnedIs(calls[|calls| - 1].time - calls[0].time, t.rate);
  }
}
