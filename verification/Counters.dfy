/** stats.go, and isEmpty() of mystery_dialer.go: the counters are loaded one
    after the other while validators go on counting. */
module Counters {
  import opened Proto
  import opened Machine
  import opened Lifecycle
  import opened Engine

  /** The order of the loop. */
  const LOADED: seq<Protocol> := [ProtoSOCKS4a, ProtoSOCKS4, ProtoSOCKS5, ProtoHTTP]

  /** The sum of the first n counters. */
  function FirstOf(v: PerProto<nat>, n: nat): nat
    requires n <= 4
  {
    if n == 0 then 0 else FirstOf(v, n - 1) + v.Get(LOADED[n - 1])
  }

  ghost predicate NoLess(v: PerProto<nat>, v': PerProto<nat>) {
    forall k: Protocol :: k != ProtoNull ==> v.Get(k) <= v'.Get(k)
  }

  lemma {:induction false} FirstNoLess(v: PerProto<nat>, v': PerProto<nat>, n: nat)
    requires n <= 4 && NoLess(v, v')
    ensures FirstOf(v, n) <= FirstOf(v', n)
  {
    if n > 0 {
      FirstNoLess(v, v', n - 1);
    }
  }

  lemma AllFour(s: State)
    ensures FirstOf(s.stats.valid, 4) == TotalValidated(s)
  {
    var v := s.stats.valid;
    assert FirstOf(v, 1) == v.v4a;
    assert FirstOf(v, 2) == v.v4a + v.v4;
    assert FirstOf(v, 3) == v.v4a + v.v4 + v.v5;
  }

  /** Others run; the counters only grow. */
  method LetOthersRun(p5: ProxyEngine, t: nat)
    requires p5.Valid() && t < |p5.threads|
    modifies p5
    ensures p5.Valid() && p5.birth == old(p5.birth) && old(p5.run) <= p5.run && t < |p5.threads|
    ensures NoLess(old(p5.stats.valid), p5.stats.valid)
    ensures !IsEmpty(old(p5.Abs())) ==> !IsEmpty(p5.Abs())
  {
    ghost var was, ran := p5.Abs(), p5.run;
    p5.ValidIsReachable();
    p5.YieldAll(t);
    p5.RunSince(was, ran);
    RunIsLater(was, p5.run[|ran|..]);
    EmptyMeansNothingValidated(was, p5.run[|ran|..]);
  }

  /** GetTotalValidated(): its answer lies between the total when it was called and the total when it returns. */
  method GetTotalValidated(p5: ProxyEngine, t: nat) returns (total: nat)
    requires p5.Valid() && t < |p5.threads|
    modifies p5
    ensures p5.Valid() && p5.birth == old(p5.birth) && old(p5.run) <= p5.run && t < |p5.threads|
    ensures old(p5.stats.valid.v4 + p5.stats.valid.v4a + p5.stats.valid.v5 + p5.stats.valid.http) <= total
    ensures total <= p5.stats.valid.v4 + p5.stats.valid.v4a + p5.stats.valid.v5 + p5.stats.valid.http
    ensures !IsEmpty(old(p5.Abs())) ==> !IsEmpty(p5.Abs())
  {
    ghost var was := p5.Abs();
    total := 0;
    var i := 0;
    while i < |LOADED|
      invariant 0 <= i <= |LOADED| == 4
      invariant p5.Valid() && p5.birth == old(p5.birth) && old(p5.run) <= p5.run && t < |p5.threads|
      invariant FirstOf(was.stats.valid, i) <= total <= FirstOf(p5.stats.valid, i)
      invariant NoLess(was.stats.valid, p5.stats.valid)
      invariant !IsEmpty(was) ==> !IsEmpty(p5.Abs())
    {
      ghost var v := p5.stats.valid;
      total := total + p5.stats.valid.Get(LOADED[i]);
      i := i + 1;
      LetOthersRun(p5, t);
      FirstNoLess(v, p5.stats.valid, i);
    }
    AllFour(was);
    AllFour(p5.Abs());
  }

  /** isEmpty() with its five loads: "empty" was so when it was called, "not
      empty" is so when it returns, so its answer is that of one moment of the call. */
  method EmptyNow(p5: ProxyEngine, t: nat) returns (empty: bool)
    requires p5.Valid() && t < |p5.threads|
    modifies p5
    ensures p5.Valid() && p5.birth == old(p5.birth) && old(p5.run) <= p5.run && t < |p5.threads|
    ensures if empty then IsEmpty(old(p5.Abs())) else !IsEmpty(p5.Abs())
  {
    if p5.stats.checked == 0 {
      return true;
    }
    LetOthersRun(p5, t);
    ghost var mid := p5.Abs();
    var total := GetTotalValidated(p5, t);
    p5.ValidIsReachable();
    EmptyMeansNothingValidated(p5.Abs(), []);
    assert total == 0 ==> IsEmpty(mid);
    return total == 0;
  }
}
