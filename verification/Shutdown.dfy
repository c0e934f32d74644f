/** After Close: the engine's context stays done, also across a later Resume, so
    only validations that were already past their context checks can still succeed. */
module Shutdown {
  import opened Proto
  import opened Machine
  import opened Meters
  import opened Ownership
  import opened Facts
  import opened Invariant
  import opened Runs

  /** What can still be counted valid, plus what was. */
  ghost function Potential(s: State): nat {
    TotalValidated(s) + Sum(InFlight, s.threads)
  }

  lemma ClosedStepSpends(s: State, pc: PC, o: Oracle)
    requires PcOk(pc, |s.proxies|) && OpOk(s, ThreadEffect(s, pc, o).op) && s.closed
    ensures var e := ThreadEffect(s, pc, o);
            TotalValidated(Perform(s, e.op)) + Weight(InFlight, e.pc) <= TotalValidated(s) + Weight(InFlight, pc)
    ensures var e := ThreadEffect(s, pc, o); e.born.Some? ==> Weight(InFlight, e.born.value) == 0
  {
    if pc.Validator? {
      ClosedValidatorSpends(s, pc, o);
    } else {
      OthersPlain(s, pc, o);
      PlainCountsNothing(s, ThreadEffect(s, pc, o));
    }
  }

  lemma ClosedValidatorSpends(s: State, pc: PC, o: Oracle)
    requires PcOk(pc, |s.proxies|) && OpOk(s, ThreadEffect(s, pc, o).op) && s.closed && pc.Validator?
    ensures var e := ThreadEffect(s, pc, o);
            e.born == None
            && TotalValidated(Perform(s, e.op)) + Weight(InFlight, e.pc) <= TotalValidated(s) + Weight(InFlight, pc)
  {
    ValidatorTouches(s, pc.sock, pc.entry, pc.v, o);
  }

  lemma PlainCountsNothing(s: State, e: Effect)
    requires OpOk(s, e.op) && Plain(s, e)
    ensures TotalValidated(Perform(s, e.op)) == TotalValidated(s) && Weight(InFlight, e.pc) == 0
    ensures e.born.Some? ==> Weight(InFlight, e.born.value) == 0
  {
  }

  lemma ClosedNextSpends(s: State, a: Action)
    requires Inv(s) && Enabled(s, a) && s.closed
    ensures Next(s, a).closed && Potential(Next(s, a)) <= Potential(s)
  {
    match a
    case Step(t, o) => ThreadSpends(s, t, o);
    case Call(pc) => SumAppend(InFlight, s.threads, pc);
    case _ =>
  }

  lemma ThreadSpends(s: State, t: nat, o: Oracle)
    requires WellFormed(s) && Enabled(s, Step(t, o)) && s.closed
    ensures Next(s, Step(t, o)).closed && Potential(Next(s, Step(t, o))) <= Potential(s)
  {
    EffectPcOk(s, t, o);
    ClosedStepSpends(s, s.threads[t], o);
    ApplySpends(s, t, ThreadEffect(s, s.threads[t], o));
  }

  lemma ApplySpends(s: State, t: nat, e: Effect)
    requires t < |s.threads| && OpOk(s, e.op) && s.closed
    requires TotalValidated(Perform(s, e.op)) + Weight(InFlight, e.pc)
          <= TotalValidated(s) + Weight(InFlight, s.threads[t])
    requires e.born.Some? ==> Weight(InFlight, e.born.value) == 0
    ensures Apply(s, t, e).closed && Potential(Apply(s, t, e)) <= Potential(s)
  {
    SumApply(InFlight, s.threads, t, e);
    RecordAfterClose(s, e.op);
  }

  lemma RecordAfterClose(s: State, op: Op)
    requires OpOk(s, op) && s.closed
    ensures Perform(s, op).closed
  {
  }

  lemma {:induction false} ClosedRunSpends(s: State, acts: seq<Action>)
    requires Inv(s) && Legal(s, acts) && s.closed
    ensures Exec(s, acts).closed && Potential(Exec(s, acts)) <= Potential(s)
    decreases |acts|
  {
    if acts != [] {
      NextKeepsInv(s, acts[0]);
      ClosedNextSpends(s, acts[0]);
      ClosedRunSpends(Next(s, acts[0]), acts[1..]);
    }
  }

  // ---------------------------------------------------------------- at most one per proxy

  /** Threads holding a lock of the first n records. */
  ghost function Holders(ts: seq<PC>, n: nat): nat {
    if n == 0 then 0 else Holders(ts, n - 1) + Sum(Holding(n - 1), ts)
  }

  lemma {:induction false} HoldersAreLocks(s: State, n: nat)
    requires Owned(s) && n <= |s.proxies|
    ensures Holders(s.threads, n) == Total(Locks, s.proxies[..n])
  {
    if n > 0 {
      HoldersAreLocks(s, n - 1);
      assert s.proxies[..n][..n - 1] == s.proxies[..n - 1];
      assert Sum(Holding(n - 1), s.threads) == if LockedAt(s.proxies, n - 1) then 1 else 0;
    }
  }

  lemma {:induction false} HoldersAppend(ts: seq<PC>, pc: PC, n: nat)
    ensures Holders(ts + [pc], n)
         == Holders(ts, n) + (if Held(pc).Some? && Held(pc).value < n then 1 else 0)
  {
    if n > 0 {
      HoldersAppend(ts, pc, n - 1);
      SumAppend(Holding(n - 1), ts, pc);
    }
  }

  lemma {:induction false} HoldersEmpty(n: nat)
    ensures Holders([], n) == 0
  {
    if n > 0 {
      HoldersEmpty(n - 1);
    }
  }

  lemma {:induction false} InFlightHold(ts: seq<PC>, n: nat)
    requires forall t :: 0 <= t < |ts| ==> PcOk(ts[t], n)
    ensures Sum(InFlight, ts) <= Holders(ts, n)
  {
    if ts == [] {
      HoldersEmpty(n);
    } else {
      var last := |ts| - 1;
      InFlightHold(ts[..last], n);
      assert PcOk(ts[last], n);
      HoldersAppend(ts[..last], ts[last], n);
      assert ts[..last] + [ts[last]] == ts;
    }
  }

  /** After Close, over any run, total validated grows by at most the validations
      in flight at that moment, of which each locked proxy carries at most one. */
  lemma CloseBoundsValidations(s: State, acts: seq<Action>)
    requires Reachable(s) && WellFormed(s) && Legal(s, acts) && s.closed
    ensures TotalValidated(Exec(s, acts)) <= TotalValidated(s) + Sum(InFlight, s.threads)
    ensures Sum(InFlight, s.threads) <= Total(Locks, s.proxies)
    ensures Exec(s, acts).closed
  {
    ReachableInv(s);
    ClosedRunSpends(s, acts);
    InFlightHold(s.threads, |s.proxies|);
    HoldersAreLocks(s, |s.proxies|);
    assert s.proxies[..|s.proxies|] == s.proxies;
  }
}
