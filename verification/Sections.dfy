/** Critical sections from the taking of the lock to its release, over whole histories. */
module Sections {
  import opened Proto
  import opened Machine
  import opened Meters
  import opened Ownership
  import opened Facts
  import opened Invariant
  import opened Runs
  import opened Histories

  // ---------------------------------------------------------------- every path releases

  function OwnSteps(acts: seq<Action>, t: nat): nat {
    if acts == [] then 0 else (if acts[0].Step? && acts[0].t == t then 1 else 0) + OwnSteps(acts[1..], t)
  }

  /** Up to state i thread t holds record p, and at state i the record is free again. */
  predicate ReleasedAt(h: History, i: nat, t: nat, p: nat)
    requires h.Shaped()
  {
    && 0 < i <= |h.acts|
    && (forall j :: 0 <= j < i ==> t < |h.states[j].threads| && Held(h.states[j].threads[t]) == Some(p))
    && t < |h.states[i].threads| && Held(h.states[i].threads[t]) == None
    && p < |h.states[i].proxies| && !h.states[i].proxies[p].locked
  }

  /** The step in which a holder leaves its critical section unlocks the record. */
  lemma LeavingUnlocks(s: State, t: nat, o: Oracle, p: nat)
    requires Inv(s) && t < |s.threads| && Held(s.threads[t]) == Some(p) && Enabled(s, Step(t, o))
    ensures var s' := Next(s, Step(t, o));
            && t < |s'.threads| && s'.threads[t] == ThreadEffect(s, s.threads[t], o).pc
            && (Held(s'.threads[t]) == None ==> p < |s'.proxies| && !s'.proxies[p].locked)
  {
    EffectUnderLock(s, t, o);
  }

  /** What the first action of a history does to a holder. */
  lemma HolderGoesOn(h: History, t: nat, p: nat)
    requires Genuine(h) && t < |h.states[0].threads| && Held(h.states[0].threads[t]) == Some(p)
    requires OwnSteps(h.acts, t) >= Rank(h.states[0].threads[t])
    ensures h.acts != [] && Rank(h.states[0].threads[t]) <= 21
    ensures var s' := h.states[1];
            && t < |s'.threads|
            && (Held(s'.threads[t]) == None ==> p < |s'.proxies| && !s'.proxies[p].locked)
            && (Held(s'.threads[t]) != None ==>
                  Held(s'.threads[t]) == Some(p) && OwnSteps(h.acts[1..], t) >= Rank(s'.threads[t]))
  {
    var s := h.states[0];
    HolderMovesOn(s, t, SomeOracle(s, t));
    assert StepAt(h, 0);
    if IsStepOf(h, 0, t) {
      HolderMovesOn(s, t, h.acts[0].o);
      LeavingUnlocks(s, t, h.acts[0].o, p);
    } else {
      NextKeepsOthers(s, h.acts[0], t);
    }
  }

  /** Whatever the others do, a holder that has made as many steps as its place
      in the critical section allows, 21 at most, has released the lock meanwhile. */
  lemma {:induction false} ReleasedInTime(h: History, t: nat, p: nat) returns (i: nat)
    requires Genuine(h) && t < |h.states[0].threads| && Held(h.states[0].threads[t]) == Some(p)
    requires OwnSteps(h.acts, t) >= Rank(h.states[0].threads[t])
    ensures ReleasedAt(h, i, t, p) && Rank(h.states[0].threads[t]) <= 21
    decreases |h.acts|
  {
    HolderGoesOn(h, t, p);
    if Held(h.states[1].threads[t]) == None {
      return 1;
    }
    RestIsGenuine(h, 1);
    var later := ReleasedInTime(Rest(h, 1), t, p);
    i := later + 1;
    forall j | 0 <= j < i ensures t < |h.states[j].threads| && Held(h.states[j].threads[t]) == Some(p) {
      if j > 0 {
        assert h.states[j] == Rest(h, 1).states[j - 1];
      }
    }
    assert h.states[i] == Rest(h, 1).states[later];
  }

  // ---------------------------------------------------------------- one verdict

  /** Thread t is inside the same validate() call, on record p found as e. */
  predicate Inside(s: State, t: nat, p: nat, e: Proxy) {
    && t < |s.threads| && s.threads[t].Validator? && !s.threads[t].v.Cas?
    && s.threads[t].sock == p && s.threads[t].entry == e
  }

  predicate Done(s: State, t: nat, verdict: Verdict) {
    t < |s.threads| && s.threads[t] == Finished(Validated(verdict))
  }

  /** A validate() call that took the lock stays one call, on one record, until it
      releases, which frees the record and changes nothing else of it. */
  lemma NextStaysInside(s: State, a: Action, t: nat, p: nat, e: Proxy)
    requires Inv(s) && Enabled(s, a) && Inside(s, t, p, e)
    ensures p < |s.proxies|
    ensures var s' := Next(s, a);
            if s.threads[t].v.Release? && a.Step? && a.t == t
            then Done(s', t, s.threads[t].v.verdict) && s'.proxies == s.proxies[p := s.proxies[p].(locked := false)]
            else Inside(s', t, p, e)
  {
    if a.Step? && a.t == t {
      ValidatorStaysInside(s, p, e, s.threads[t].v, a.o);
    } else {
      NextKeepsOthers(s, a, t);
      assert PcOk(s.threads[t], |s.proxies|);
    }
  }

  lemma ValidatorStaysInside(s: State, p: nat, e: Proxy, v: VStage, o: Oracle)
    requires p < |s.proxies| && !v.Cas?
    ensures var f := ValidatorEffect(s, p, e, v, o);
            if v.Release?
            then f == Do(Write(p, s.proxies[p].(locked := false)), Finished(Validated(v.verdict)))
            else f.pc.Validator? && f.pc.sock == p && f.pc.entry == e && !f.pc.v.Cas?
  {
  }

  /** At step i the call releases the lock of its record, which then differs from
      what the call found by exactly one good() or one bad(), or by neither if it
      was rate limited or cut short by shutdown. */
  predicate ReleasesWith(h: History, i: nat, t: nat, p: nat, e: Proxy, verdict: Verdict)
    requires h.Shaped()
  {
    && IsStepOf(h, i, t) && Inside(h.states[i], t, p, e) && h.states[i].threads[t].v == Release(verdict)
    && p < |h.states[i].proxies| && Judged(e, h.states[i].proxies[p], verdict, h.states[i].closed)
    && h.states[i + 1].proxies == h.states[i].proxies[p := h.states[i].proxies[p].(locked := false)]
  }

  /** Before the release the verdict already stands. */
  predicate AboutToRelease(s: State, t: nat, p: nat, e: Proxy)
    requires Inside(s, t, p, e)
  {
    p < |s.proxies| &&
    (s.threads[t].v.Release? ==> Judged(e, s.proxies[p], s.threads[t].v.verdict, s.closed))
  }

  /** One verdict per admitted validation: whatever else runs meanwhile, a call
      that took the lock is still inside, or has released with one verdict and is done with that. */
  lemma {:induction false} OneVerdict(h: History, t: nat, p: nat, e: Proxy)
    requires Genuine(h) && Inside(h.states[0], t, p, e)
    ensures (Inside(h.Last(), t, p, e) && AboutToRelease(h.Last(), t, p, e))
         || (exists i, verdict :: ReleasesWith(h, i, t, p, e, verdict) && Done(h.Last(), t, verdict))
    decreases |h.acts|
  {
    VerdictStands(h, t, p, e);
    if h.acts != [] {
      FrontIsGenuine(h);
      OneVerdict(h.Front(), t, p, e);
      LastStepOfVerdict(h, t, p, e);
    }
  }

  lemma VerdictStands(h: History, t: nat, p: nat, e: Proxy)
    requires Genuine(h)
    ensures Inside(h.Last(), t, p, e) ==> AboutToRelease(h.Last(), t, p, e)
  {
    InvAt(h, |h.acts|);
    if Inside(h.Last(), t, p, e) {
      assert Knows(h.Last(), h.Last().threads[t]);
    }
  }

  lemma LastStepOfVerdict(h: History, t: nat, p: nat, e: Proxy)
    requires Genuine(h) && h.acts != []
    requires Inside(h.Front().Last(), t, p, e)
          || (exists i, verdict :: ReleasesWith(h.Front(), i, t, p, e, verdict) && Done(h.Front().Last(), t, verdict))
    ensures Inside(h.Last(), t, p, e)
         || (exists i, verdict :: ReleasesWith(h, i, t, p, e, verdict) && Done(h.Last(), t, verdict))
  {
    var n := |h.acts| - 1;
    var front := h.Front();
    FrontIsGenuine(h);
    InvAt(h, n);
    if Inside(h.states[n], t, p, e) {
      NextStaysInside(h.states[n], h.acts[n], t, p, e);
      VerdictStands(front, t, p, e);
      if h.states[n].threads[t].v.Release? && IsStepOf(h, n, t) {
        assert ReleasesWith(h, n, t, p, e, h.states[n].threads[t].v.verdict);
      }
    } else {
      var i, verdict :| ReleasesWith(front, i, t, p, e, verdict) && Done(front.Last(), t, verdict);
      assert ReleasesWith(h, i, t, p, e, verdict);
      NextKeepsOthers(h.states[n], h.acts[n], t);
    }
  }

  // ---------------------------------------------------------------- what a verdict costs

  /** Network checks that thread t completes before state n. */
  function ChecksMade(h: History, t: nat, n: nat): nat
    requires h.Shaped() && n <= |h.acts|
  {
    if n == 0 then 0 else ChecksMade(h, t, n - 1) + (if CompletesCheck(h, t, n - 1) then 1 else 0)
  }

  predicate CompletesCheck(h: History, t: nat, i: nat)
    requires h.Shaped() && i < |h.acts|
  {
    IsStepOf(h, i, t) && t < |h.states[i].threads| && h.states[i].threads[t].Validator?
    && h.states[i].threads[t].v.Count? && h.states[i + 1].stats.checked == h.states[i].stats.checked + 1
  }

  /** Checks of a call that comes to a verdict: all three protocols on a record
      without a known one, else the one. */
  function Full(e: Proxy): nat {
    if e.Protocol() == ProtoNull then 3 else 1
  }

  /** A call at stage v on a record found as e has made m checks. */
  predicate Checked(e: Proxy, v: VStage, m: nat) {
    match v
    case Gate => m == 0
    case Limits => m == 0
    case Stamp(_) => m == Full(e)
    case Tally(_) => m == Full(e)
    case Push(_) => m == Full(e)
    case Release(verdict) =>
      (match verdict
       case Limited => m == 0
       case CutShort => m < 3
       case Good => m == Full(e)
       case Bad => m == Full(e)
       case Refused => false)
    case _ => m == ChecksOf(v)
  }

  /** One step of the call, and whether it completes a check. */
  lemma CheckedStep(s: State, p: nat, e: Proxy, v: VStage, o: Oracle, m: nat)
    requires p < |s.proxies| && AsIfAlone(e, s.proxies[p], v, s.closed) && Checked(e, v, m)
    requires OracleOk(s, Validator(p, e, v), o)
    ensures var f := ValidatorEffect(s, p, e, v, o);
            && (f.op.CountCheck? <==> v.Count?)
            && (f.pc.Validator? ==> Checked(e, f.pc.v, if v.Count? then m + 1 else m))
  {
    if v.Try? && v.todo != {} {
      assert |v.todo| >= 1 by {
        var k :| k in v.todo;
        assert v.todo == (v.todo - {k}) + {k};
      }
    }
  }

  lemma CountIsCounted(s: State, t: nat, o: Oracle)
    requires WellFormed(s) && Enabled(s, Step(t, o)) && s.threads[t].Validator?
    ensures Next(s, Step(t, o)).stats.checked
         == s.stats.checked + if ThreadEffect(s, s.threads[t], o).op.CountCheck? then 1 else 0
    ensures t < |Next(s, Step(t, o)).threads|
    ensures Next(s, Step(t, o)).threads[t] == ThreadEffect(s, s.threads[t], o).pc
  {
    EffectPcOk(s, t, o);
    OpCountsChecks(s, ThreadEffect(s, s.threads[t], o).op);
  }

  lemma OpCountsChecks(s: State, op: Op)
    requires OpOk(s, op)
    ensures Perform(s, op).stats.checked == s.stats.checked + if op.CountCheck? then 1 else 0
  {
  }

  /** As long as a call that began after the lock is inside, it has made the checks of its stage. */
  lemma {:induction false} ChecksOfStage(h: History, t: nat, p: nat, e: Proxy, n: nat)
    requires Genuine(h) && Inside(h.states[0], t, p, e) && h.states[0].threads[t].v == Gate
    requires n <= |h.acts| && Inside(h.states[n], t, p, e)
    requires forall j :: 0 <= j <= n ==> Inside(h.states[j], t, p, e)
    ensures Checked(e, h.states[n].threads[t].v, ChecksMade(h, t, n))
  {
    if n > 0 {
      ChecksOfStage(h, t, p, e, n - 1);
      OneStepChecked(h, t, p, e, n - 1);
    }
  }

  lemma OneStepChecked(h: History, t: nat, p: nat, e: Proxy, i: nat)
    requires Genuine(h) && i < |h.acts| && Inside(h.states[i], t, p, e) && Inside(h.states[i + 1], t, p, e)
    requires Checked(e, h.states[i].threads[t].v, ChecksMade(h, t, i))
    ensures Checked(e, h.states[i + 1].threads[t].v, ChecksMade(h, t, i + 1))
  {
    var s := h.states[i];
    InvAt(h, i);
    assert Knows(s, s.threads[t]);
    assert StepAt(h, i);
    if IsStepOf(h, i, t) {
      CheckedStep(s, p, e, s.threads[t].v, h.acts[i].o, ChecksMade(h, t, i));
      CountIsCounted(s, t, h.acts[i].o);
    } else {
      NextKeepsOthers(s, h.acts[i], t);
    }
  }

  /** Once the call has left, it does not come back. */
  lemma {:induction false} InsideSoFar(h: History, t: nat, p: nat, e: Proxy, n: nat)
    requires Genuine(h) && Inside(h.states[0], t, p, e) && n <= |h.acts| && Inside(h.states[n], t, p, e)
    ensures forall j :: 0 <= j <= n ==> Inside(h.states[j], t, p, e)
  {
    if n > 0 {
      InvAt(h, n - 1);
      InsideBefore(h, t, p, e, n - 1);
      InsideSoFar(h, t, p, e, n - 1);
    }
  }

  lemma InsideBefore(h: History, t: nat, p: nat, e: Proxy, n: nat)
    requires Genuine(h) && Inside(h.states[0], t, p, e) && n < |h.acts| && Inside(h.states[n + 1], t, p, e)
    ensures Inside(h.states[n], t, p, e)
  {
    var front := History(h.states[..n + 1], h.acts[..n]);
    forall i | 0 <= i < n ensures StepAt(front, i) {
      assert StepAt(h, i);
    }
    OneVerdict(front, t, p, e);
    if !Inside(h.states[n], t, p, e) {
      var i, verdict :| ReleasesWith(front, i, t, p, e, verdict) && Done(front.Last(), t, verdict);
      assert StepAt(h, n);
      NextKeepsOthers(h.states[n], h.acts[n], t);
    }
  }

  /** What a verdict costs: a call that releases with good() or bad() has made
      all three checks on a record without a known protocol and one on any
      other; none if it was rate limited; and fewer than three if it was cut short. */
  lemma VerdictCosts(h: History, t: nat, p: nat, e: Proxy, i: nat, verdict: Verdict)
    requires Genuine(h) && Inside(h.states[0], t, p, e) && h.states[0].threads[t].v == Gate
    requires ReleasesWith(h, i, t, p, e, verdict)
    ensures i <= |h.acts| && verdict != Refused
    ensures verdict == Good || verdict == Bad ==> ChecksMade(h, t, i) == if e.Protocol() == ProtoNull then 3 else 1
    ensures verdict == Limited ==> ChecksMade(h, t, i) == 0
    ensures verdict == CutShort ==> ChecksMade(h, t, i) < 3
  {
    InsideSoFar(h, t, p, e, i);
    ChecksOfStage(h, t, p, e, i);
  }
}
