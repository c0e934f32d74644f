/** What users of the engine can rely on, in every reachable state and over every run. */
module Lifecycle {
  import opened Proto
  import opened Machine
  import opened Meters
  import opened Facts
  import opened Accounts
  import opened Invariant
  import opened Runs

  // ---------------------------------------------------------------- time goes one way

  lemma NextIsLater(s: State, a: Action)
    requires Inv(s) && Enabled(s, a)
    ensures Later(s, Next(s, a))
    ensures forall k: Protocol :: k != ProtoNull ==> s.stats.valid.Get(k) <= Next(s, a).stats.valid.Get(k)
    ensures multiset(s.pending) <= multiset(Next(s, a).pending)
  {
    if a.Step? {
      StepGood(s, a.t, a.o);
      var e := ThreadEffect(s, s.threads[a.t], a.o);
      PerformIsLater(s, e.op);
      PendingOnlyGrows(s, e.op);
      forall k: Protocol | k != ProtoNull ensures s.stats.valid.Get(k) <= Perform(s, e.op).stats.valid.Get(k) {
        SlotMoves(s, e.op, k);
      }
    }
  }

  lemma {:induction false} RunIsLater(s: State, acts: seq<Action>)
    requires Inv(s) && Legal(s, acts)
    ensures Later(s, Exec(s, acts))
    ensures forall k: Protocol :: k != ProtoNull ==> s.stats.valid.Get(k) <= Exec(s, acts).stats.valid.Get(k)
    ensures multiset(s.pending) <= multiset(Exec(s, acts).pending)
    decreases |acts|
  {
    if acts != [] {
      var s1 := Next(s, acts[0]);
      NextKeepsInv(s, acts[0]);
      NextIsLater(s, acts[0]);
      RunIsLater(s1, acts[1..]);
      LaterTransitive(s, s1, Exec(s, acts));
      forall k: Protocol | k != ProtoNull ensures s.stats.valid.Get(k) <= Exec(s, acts).stats.valid.Get(k) {
        assert s.stats.valid.Get(k) <= s1.stats.valid.Get(k);
      }
    }
  }

  // ---------------------------------------------------------------- typed lists

  /** A proxy on the list of protocol k has been validated, is fixed to k, and stays so for ever. */
  lemma ListedProxyKeepsItsProtocol(s: State, k: Protocol, i: nat, acts: seq<Action>)
    requires Reachable(s) && WellFormed(s) && Legal(s, acts)
    requires k != ProtoNull && i < |s.valids.Get(k)|
    ensures var p, s' := s.valids.Get(k)[i], Exec(s, acts);
            p < |s'.proxies| && s'.proxies[p].Protocol() == k && s'.proxies[p].timesValidated > 0
  {
    ReachableInv(s);
    var p := s.valids.Get(k)[i];
    assert ProvenAs(s.proxies, p, k);
    RunIsLater(s, acts);
    ProvenStays(s, Exec(s, acts), p);
  }

  lemma FrontIsProven(s: State, k: Protocol)
    requires Informed(s) && k != ProtoNull && |s.valids.Get(k)| > 0
    ensures exists p :: 0 <= p < |s.proxies| && s.proxies[p].Protocol() == k && RecOk(s.proxies[p])
  {
    var p := s.valids.Get(k)[0];
    assert ProvenAs(s.proxies, p, k);
  }

  /** popSockAndLockIt never meets a proxy of unknown protocol. */
  lemma UnknownProtocolUnreachable(s: State, t: nat)
    requires Reachable(s) && t < |s.threads|
    ensures s.threads[t].Dialer? && s.threads[t].d.DRequeue? ==>
              s.threads[t].d.sock < |s.proxies| && s.proxies[s.threads[t].d.sock].Protocol() != ProtoNull
    ensures s.threads[t].Finished? && s.threads[t].out.DialFailed? ==> s.threads[t].out.why != UnknownProtocol
  {
    ReachableInv(s);
    assert Knows(s, s.threads[t]);
  }

  /** `protoMap` has no HTTP entry, so no proxy is ever tried, counted, listed or
      handed out as HTTP: a call of GetHTTPTunnel loops for ever. */
  lemma HttpNeverHappens(s: State, t: nat)
    requires Reachable(s)
    ensures s.valids.http == [] && s.stats.valid.http == 0
    ensures t < |s.threads| && s.threads[t].GetStr? && s.threads[t].proto == ProtoHTTP ==> s.threads[t].r == StrLoop
    ensures t < |s.threads| ==>
              !(s.threads[t].Finished? && s.threads[t].out.GotEndpoint? && s.threads[t].out.proto == ProtoHTTP)
  {
    ReachableInv(s);
    if |s.valids.Get(ProtoHTTP)| > 0 {
      FrontIsProven(s, ProtoHTTP);
    }
    NoHttpReadings(s.proxies);
    assert s.stats.valid.Get(ProtoHTTP) + Sum(Passed(ProtoHTTP), s.threads) == 0;
    if t < |s.threads| {
      var pc := s.threads[t];
      assert Knows(s, pc);
      if pc.GetStr? && pc.r.StrExit? {
        assert RecOk(s.proxies[pc.r.sock]);
      } else if pc.Finished? && pc.out.GotEndpoint? {
        assert RecOk(s.proxies[pc.out.sock]);
      }
    }
  }

  lemma {:induction false} NoHttpReadings(rs: seq<Proxy>)
    requires forall p :: 0 <= p < |rs| ==> RecOk(rs[p])
    ensures Total(ValidOf(ProtoHTTP), rs) == 0
  {
    if rs != [] {
      NoHttpReadings(rs[..|rs| - 1]);
      assert RecOk(rs[|rs| - 1]);
    }
  }

  // ---------------------------------------------------------------- conservation

  function Successes(rs: seq<Proxy>): nat {
    if rs == [] then 0 else Successes(rs[..|rs| - 1]) + rs[|rs| - 1].timesValidated
  }

  /** Validators between good() and the counter increment inside tally(). */
  function Between(s: State): nat {
    Sum(Passed(ProtoSOCKS4), s.threads) + Sum(Passed(ProtoSOCKS4a), s.threads)
    + Sum(Passed(ProtoSOCKS5), s.threads) + Sum(Passed(ProtoHTTP), s.threads)
  }

  lemma {:induction false} SuccessesSplit(rs: seq<Proxy>)
    requires forall p :: 0 <= p < |rs| ==> RecOk(rs[p])
    ensures Successes(rs) == Total(ValidOf(ProtoSOCKS4), rs) + Total(ValidOf(ProtoSOCKS4a), rs)
                           + Total(ValidOf(ProtoSOCKS5), rs) + Total(ValidOf(ProtoHTTP), rs)
  {
    if rs != [] {
      SuccessesSplit(rs[..|rs| - 1]);
      assert RecOk(rs[|rs| - 1]);
    }
  }

  lemma CountersAndRecords(s: State)
    requires Inv(s)
    ensures TotalValidated(s) + Between(s) == Successes(s.proxies)
  {
    SuccessesSplit(s.proxies);
    CounterAndRecords(s, ProtoSOCKS4);
    CounterAndRecords(s, ProtoSOCKS4a);
    CounterAndRecords(s, ProtoSOCKS5);
    CounterAndRecords(s, ProtoHTTP);
  }

  lemma CounterAndRecords(s: State, k: Protocol)
    requires Inv(s) && k != ProtoNull
    ensures s.stats.valid.Get(k) + Sum(Passed(k), s.threads) == Total(ValidOf(k), s.proxies)
  {
  }

  /** The four counters together are the validations of all records ever
      created, less the validators in between. */
  lemma ValidationsConserved(s: State)
    requires Reachable(s)
    ensures s.stats.valid.v4 + s.stats.valid.v4a + s.stats.valid.v5 + s.stats.valid.http + Between(s)
         == Successes(s.proxies)
  {
    ReachableInv(s);
    CountersAndRecords(s);
  }

  /** Per list: what is on it and what left it is what was counted valid or put back, less the pushes under way. */
  lemma ListFlowConserved(s: State, k: Protocol)
    requires Reachable(s) && k != ProtoNull
    ensures |s.valids.Get(k)| + s.log.pops.Get(k)
         == s.stats.valid.Get(k) + s.log.requeues.Get(k) - Sum(Counted(k), s.threads)
  {
    ReachableInv(s);
  }

  /** Dispensed counts every completed GetAnySOCKS or getSocksStr, also the ones
      a dialer made and the ones that came back nil. */
  lemma DispensedCountsCalls(s: State)
    requires Reachable(s)
    ensures s.stats.dispensed == Sum(Gets, s.threads)
  {
    ReachableInv(s);
  }

  lemma {:induction false} SuccessesAreVerdicts(rs: seq<Proxy>)
    ensures Successes(rs) <= Total(Verdicts, rs)
  {
    if rs != [] {
      SuccessesAreVerdicts(rs[..|rs| - 1]);
    }
  }

  /** Validated <= verdicts <= checks, and while the engine is live a verdict costs at most three checks. */
  lemma ChecksCoverVerdicts(s: State)
    requires Reachable(s)
    ensures TotalValidated(s) <= Successes(s.proxies) <= Total(Verdicts, s.proxies) <= s.stats.checked
    ensures !s.closed ==> s.stats.checked <= 3 * Total(Verdicts, s.proxies) + Sum(Checks, s.threads)
  {
    ReachableInv(s);
    ValidationsConserved(s);
    SuccessesAreVerdicts(s.proxies);
  }

  /** isEmpty() asks only whether anything was ever validated, and once false it is false for ever. */
  lemma EmptyMeansNothingValidated(s: State, acts: seq<Action>)
    requires Reachable(s) && WellFormed(s) && Legal(s, acts)
    ensures IsEmpty(s) <==>
              s.stats.valid.v4 == 0 && s.stats.valid.v4a == 0 && s.stats.valid.v5 == 0 && s.stats.valid.http == 0
    ensures !IsEmpty(s) ==> !IsEmpty(Exec(s, acts))
  {
    ChecksCoverVerdicts(s);
    ReachableInv(s);
    RunIsLater(s, acts);
    var s' := Exec(s, acts);
    TotalGrows(s, s');
    if !IsEmpty(s) {
      RunKeepsInv(s, acts);
      CheckedIfValidated(s');
    }
  }

  lemma TotalGrows(s: State, s': State)
    requires forall k: Protocol :: k != ProtoNull ==> s.stats.valid.Get(k) <= s'.stats.valid.Get(k)
    ensures TotalValidated(s) <= TotalValidated(s')
  {
    assert s.stats.valid.Get(ProtoSOCKS4) <= s'.stats.valid.Get(ProtoSOCKS4);
    assert s.stats.valid.Get(ProtoSOCKS4a) <= s'.stats.valid.Get(ProtoSOCKS4a);
    assert s.stats.valid.Get(ProtoSOCKS5) <= s'.stats.valid.Get(ProtoSOCKS5);
    assert s.stats.valid.Get(ProtoHTTP) <= s'.stats.valid.Get(ProtoHTTP);
  }

  lemma CheckedIfValidated(s: State)
    requires Inv(s) && TotalValidated(s) > 0
    ensures s.stats.checked > 0
  {
    CountersAndRecords(s);
    SuccessesAreVerdicts(s.proxies);
  }

  // ---------------------------------------------------------------- settled records

  /** While the engine is live, a record that nobody has locked has a protocol iff it was ever validated. */
  lemma ProtocolKnownIffValidated(s: State, p: nat)
    requires Reachable(s) && p < |s.proxies| && !s.closed && !s.proxies[p].locked
    ensures s.proxies[p].Protocol() != ProtoNull <==> s.proxies[p].timesValidated > 0
  {
    ReachableInv(s);
    UnlockedIsSettled(s, p);
  }

  // ---------------------------------------------------------------- dispensing

  /** What the getters return has been validated at least once and has a fixed
      protocol; GetAnySOCKS returns nil only after the engine was closed. */
  lemma ReturnedIsProven(s: State, t: nat)
    requires Reachable(s) && t < |s.threads| && s.threads[t].Finished?
    ensures var out := s.threads[t].out;
            && (out.GotProxy? && out.found.Some? ==>
                  out.found.value < |s.proxies| && Proven(s.proxies[out.found.value]))
            && (out == GotProxy(None) ==> s.closed)
            && (out.GotEndpoint? ==>
                  out.sock < |s.proxies| && Proven(s.proxies[out.sock])
                  && s.proxies[out.sock].Protocol() == out.proto && s.proxies[out.sock].endpoint == out.endpoint)
            && (out.GotConn? ==> out.sock < |s.proxies| && Proven(s.proxies[out.sock]) && out.attempts > 0)
  {
    ReachableInv(s);
    assert Knows(s, s.threads[t]);
  }

  // ---------------------------------------------------------------- nothing lost

  /** Each proxy in the map is queued, or a load that will queue it is under way;
      the spawner never finds Pending empty. */
  lemma KnownProxiesAreQueued(s: State, endpoint: string, t: nat)
    requires Reachable(s)
    ensures endpoint in s.plot ==> s.plot[endpoint] in s.pending || BeingLoaded(s, endpoint, s.plot[endpoint])
    ensures endpoint in s.plot ==> s.plot[endpoint] < |s.proxies| && s.proxies[s.plot[endpoint]].endpoint == endpoint
    ensures t < |s.threads| && s.threads[t] == Spawner(JRotate) ==> |s.pending| > 0
    ensures t < |s.threads| ==> s.threads[t] != Finished(SpawnerCrashed)
  {
    ReachableInv(s);
    if t < |s.threads| {
      assert Knows(s, s.threads[t]);
    }
  }
}
