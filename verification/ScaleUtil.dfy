/** scale_util.go: the accounting and the clamp in front of ScaleAnts. */
module ScaleUtil {
  import opened Scaler
  import opened ScalerLaws

  /** Go's integer division by two, which truncates toward zero. */
  function Half(n: int): int {
    if n >= 0 then n / 2 else -((-n) / 2)
  }

  /** What scale() reads: the scale timer, the clock, the counters and the bad-proxy limiter's population. */
  datatype Reading = Reading(
    fired: bool, now: int, totalBad: nat, badAccounted: nat, validated: nat, dispensed: nat)

  const ACCOUNTING_INTERVAL := 5000  // milliseconds

  /** Bad proxies to charge, at most once per interval. */
  function Charge(rd: Reading, lastDone: int): nat {
    if rd.now - lastDone > ACCOUNTING_INTERVAL && rd.totalBad > rd.badAccounted
    then rd.totalBad - rd.badAccounted else 0
  }

  predicate Saturated(rd: Reading, lastDone: int) {
    rd.dispensed + Charge(rd, lastDone) >= rd.validated
  }

  /** What scale() passes to ScaleAnts as dispensed. */
  function Considered(rd: Reading, lastDone: int, threshold: int): int {
    if Saturated(rd, lastDone) then rd.validated - Half(threshold)
    else rd.dispensed + Charge(rd, lastDone)
  }

  class ScaleDriver {
    const pool: Pool
    const scaler: AutoScaler
    var accountingLastDone: int

    constructor (pool: Pool, scaler: AutoScaler, now: int)
      ensures this.pool == pool && this.scaler == scaler && accountingLastDone == now
    {
      this.pool := pool;
      this.scaler := scaler;
      accountingLastDone := now;
    }

    /** SetMaxWorkers() of setters.go. */
    method SetMaxWorkers(num: int, empty: bool)
      modifies scaler`baseline, pool`capacity
      ensures scaler.Seen(pool) == Happen(old(scaler.Seen(pool)), ScalerLaws.SetMaxWorkers(num, empty))
      ensures scaler.baseline == if empty && num < 2 then 2 else num
      ensures pool.capacity == if scaler.baseline > 0 then scaler.baseline else old(pool.capacity)
    {
      var n := num;
      if empty && n < 2 {
        n := 2;
      }
      pool.Tune(n);
      scaler.SetBaseline(n);
    }

    /** scale(): asks the dialer to sleep iff the timer fired on an open pool
        with demand at or above supply, and scales by the clamped numbers. */
    method Scale(rd: Reading) returns (sleep: bool)
      requires scaler.mod >= 0
      modifies this, scaler`mod, scaler`state, pool`capacity
      ensures var charged := rd.now - old(accountingLastDone) > 5000 && rd.totalBad > rd.badAccounted;
              var demand := rd.dispensed + if charged then rd.totalBad - rd.badAccounted else 0;
              && (sleep <==> rd.fired && !pool.closed && demand >= rd.validated)
              && accountingLastDone == (if rd.fired && charged then rd.now else old(accountingLastDone))
      ensures scaler.Seen(pool) ==
              if rd.fired && !pool.closed
              then Scaled(old(scaler.Seen(pool)), rd.validated,
                          Considered(rd, old(accountingLastDone), old(scaler.Threshold)))
              else old(scaler.Seen(pool))
    {
      sleep := false;
      if !rd.fired {
        return;
      }
      var bad := 0;
      var netFactors := rd.totalBad - rd.badAccounted;
      if rd.now - accountingLastDone > ACCOUNTING_INTERVAL && netFactors > 0 {
        bad := netFactors;
        accountingLastDone := rd.now;
      }
      assert bad >= 0;
      if pool.closed {
        return;
      }
      var totalConsidered := rd.dispensed + bad;
      if totalConsidered >= rd.validated {
        sleep := true;
        totalConsidered := rd.validated - Half(scaler.Threshold);
      }
      var reply := scaler.ScaleAnts(pool, rd.validated, totalConsidered);
    }
  }

  /** The scaler's own clamp fires on the numbers of scale() iff demand is
      saturated and the threshold is -2 or less; else the passed difference is
      half the threshold when saturated and the true surplus when not. */
  lemma ClampNeverFires(rd: Reading, lastDone: int, threshold: int)
    ensures Considered(rd, lastDone, threshold) > rd.validated <==> Saturated(rd, lastDone) && threshold <= -2
    ensures Saturated(rd, lastDone) && threshold >= -1 ==>
              Surplus(rd.validated, Considered(rd, lastDone, threshold)) == Half(threshold)
    ensures !Saturated(rd, lastDone) ==>
              Surplus(rd.validated, Considered(rd, lastDone, threshold))
              == rd.validated - rd.dispensed - Charge(rd, lastDone) > 0
  {
  }

  /** What scale() passes on, in numbers: the dispensed and, five seconds or more
      after the last accounting, the bad ones not accounted for; but if that is
      the supply or more, the supply less half the threshold, rounded toward zero. */
  lemma WhatIsConsidered(rd: Reading, lastDone: int, threshold: int)
    ensures var charged := rd.now - lastDone > 5000 && rd.totalBad > rd.badAccounted;
            var demand := rd.dispensed + if charged then rd.totalBad - rd.badAccounted else 0;
            var half := rd.validated - Considered(rd, lastDone, threshold);
            && (Saturated(rd, lastDone) <==> demand >= rd.validated)
            && (demand < rd.validated ==> Considered(rd, lastDone, threshold) == demand)
            && (demand >= rd.validated ==>
                  && (threshold >= 0 ==> 2 * half <= threshold <= 2 * half + 1)
                  && (threshold <= 0 ==> 2 * half - 1 <= threshold <= 2 * half))
  {
  }

  /** The calls of scale() that charge bad proxies, by the time of the last accounting. */
  function Charges(rds: seq<Reading>, lastDone: int): seq<int> {
    if rds == [] then []
    else
      var rd := rds[0];
      if rd.fired && Charge(rd, lastDone) > 0 then [rd.now] + Charges(rds[1..], rd.now)
      else Charges(rds[1..], lastDone)
  }

  /** More than five seconds from one to any later one, and from the start to the first. */
  predicate Spaced(at: seq<int>, start: int) {
    && (forall i :: 0 <= i < |at| ==> at[i] > start + 5000)
    && (forall i, j :: 0 <= i < j < |at| ==> at[j] > at[i] + 5000)
  }

  lemma OneChargeMore(at: seq<int>, start: int, first: int)
    requires Spaced(at, first) && first > start + 5000
    ensures Spaced([first] + at, start)
  {
    var all := [first] + at;
    assert forall i :: 0 < i < |all| ==> all[i] == at[i - 1];
  }

  /** No two charges are within five seconds of each other, nor the first of the last accounting. */
  lemma {:induction false} ChargesAreSpaced(rds: seq<Reading>, lastDone: int)
    ensures Spaced(Charges(rds, lastDone), lastDone)
    decreases |rds|
  {
    if rds != [] {
      var rd := rds[0];
      if rd.fired && Charge(rd, lastDone) > 0 {
        ChargesAreSpaced(rds[1..], rd.now);
        OneChargeMore(Charges(rds[1..], rd.now), lastDone, rd.now);
      } else {
        ChargesAreSpaced(rds[1..], lastDone);
      }
    }
  }

  predicate Demanding(v: View, rd: Reading, lastDone: int) {
    v.threshold >= 1 && Saturated(rd, lastDone) && (v.mod > 0 || rd.validated >= v.threshold)
  }

  function ScaledBy(v: View, rd: Reading, lastDone: int): View {
    Scaled(v, rd.validated, Considered(rd, lastDone, v.threshold))
  }

  /** Demand reaches the pool: under saturated demand with room to grow, two
      calls of scale() add a worker, and the first one does unless it only settles the state. */
  lemma DemandReachesPool(v: View, rd: Reading, lastDone: int, rd': Reading, lastDone': int)
    requires v.On() && 0 <= v.mod < v.max && v.cap >= 0
    requires Demanding(v, rd, lastDone)
    requires Demanding(ScaledBy(v, rd, lastDone), rd', lastDone')
    ensures var v1 := ScaledBy(v, rd, lastDone);
            var v2 := ScaledBy(v1, rd', lastDone');
            && (v1.cap == v.cap + 1 <==> v.mod > 0 || v.state == Idle)
            && (v1.cap == v.cap ==> v2.cap == v.cap + 1)
            && v2.cap > v.cap
  {
  }

  /** What scale() reads in a call, and when accounting was last done then. */
  datatype Moment = Moment(rd: Reading, lastDone: int)

  function ScaledOver(v: View, ms: seq<Moment>): View
    decreases |ms|
  {
    if ms == [] then v else ScaledOver(ScaledBy(v, ms[0].rd, ms[0].lastDone), ms[1..])
  }

  /** Demand is at or above supply in each call, and if nothing is scaled up yet there is supply to speak of. */
  predicate AllDemanding(v: View, ms: seq<Moment>) {
    && v.threshold >= 1
    && (forall i :: 0 <= i < |ms| ==> Saturated(ms[i].rd, ms[i].lastDone))
    && (v.mod > 0 || forall i :: 0 <= i < |ms| ==> ms[i].rd.validated >= v.threshold)
  }

  /** Under sustained demand, whatever the numbers are in each call, the pool
      grows by one worker a call until Max, but for at most one call that
      settles the state; it never shrinks, and capacity follows mod, unless the
      pool has a negative capacity, which no such call changes. */
  lemma {:induction false} SustainedDemand(v: View, ms: seq<Moment>)
    requires v.On() && v.mod >= 0 && AllDemanding(v, ms)
    ensures var w := ScaledOver(v, ms);
            var spent := if v.mod == 0 && v.state != Idle then 1 else 0;
            && w.mod >= Min(v.max, v.mod + |ms| - spent)
            && w.mod <= (if v.mod > v.max then v.mod else if v.max < 0 then 0 else v.max)
            && w.mod >= v.mod
            && w.cap == (if v.cap >= 0 then v.cap + (w.mod - v.mod) else v.cap)
    decreases |ms|
  {
    if ms != [] {
      var v1 := ScaledBy(v, ms[0].rd, ms[0].lastDone);
      assert forall i :: 0 <= i < |ms[1..]| ==> ms[1..][i] == ms[i + 1];
      SustainedDemand(v1, ms[1..]);
    }
  }
}
