/** What stillGood() lets pass: with the numbers written out, over whole histories. */
module Acceptance {
  import opened Proto
  import opened Machine
  import opened Meters
  import opened Ownership
  import opened Invariant
  import opened Runs
  import opened Histories
  import opened Sections
  import opened Policy
  import Lifecycle

  /** The step that judges the age, by the clock and the window as they are then. */
  lemma AgeDecides(s: State, t: nat, o: Oracle, c: Caller, p: nat, todo: seq<Protocol>, limit: int)
    requires Inv(s) && Enabled(s, Step(t, o)) && s.threads[t] == StillGood(c, p, todo, SgStale(limit))
    ensures p < |s.proxies|
    ensures var s' := Next(s, Step(t, o));
            && t < |s'.threads| && s'.proxies == s.proxies
            && if s.now - s.proxies[p].lastValidated <= s.opt.stale
               then s'.threads[t] == StillGood(c, p, todo, SgKeep(limit, s.now, s.opt.stale)) && s'.stats == s.stats
               else s'.threads[t] == StillGood(c, p, todo, SgDrop) && s'.stats.stale == s.stats.stale + 1
  {
    EffectPcOk(s, t, o);
  }

  /** The step that asks the bad-proxy limiter. */
  lemma LimiterDecides(s: State, t: nat, o: Oracle, c: Caller, p: nat, todo: seq<Protocol>, limit: int)
    requires Inv(s) && Enabled(s, Step(t, o)) && s.threads[t] == StillGood(c, p, todo, SgPeek(limit))
    ensures var s' := Next(s, Step(t, o));
            && t < |s'.threads| && s'.proxies == s.proxies
            && s'.threads[t] == StillGood(c, p, todo, if o.yes then SgDrop else SgStale(limit))
  {
    EffectPcOk(s, t, o);
  }

  /** At step i stillGood() gives the lock of p back, and has p to hand out or not. */
  predicate LeavesAt(h: History, i: nat, t: nat, p: nat, kept: bool)
    requires h.Shaped()
  {
    && IsStepOf(h, i, t) && p < |h.states[i].proxies|
    && h.states[i + 1].proxies == h.states[i].proxies[p := h.states[i].proxies[p].(locked := false)]
    && t < |h.states[i + 1].threads| && !h.states[i + 1].threads[t].StillGood?
    && Carried(h.states[i + 1].threads[t]) == if kept then Some(p) else None
  }

  /** stillGood() with its verdict on p. */
  predicate Leaving(pc: PC, p: nat, kept: bool) {
    pc.StillGood? && pc.sock == p && (if kept then pc.q.SgKeep? else pc.q.SgDrop?)
  }

  lemma LeavesNext(h: History, t: nat, p: nat, kept: bool) returns (i: nat)
    requires Genuine(h) && t < |h.states[0].threads| && Leaving(h.states[0].threads[t], p, kept)
    ensures i <= |h.acts| && Waits(h, t, i)
    ensures i < |h.acts| ==> LeavesAt(h, i, t, p, kept)
    ensures forall j :: 0 <= j < i ==> !IsStepOf(h, j, t)
  {
    i := FirstStep(h, t);
    if i < |h.acts| {
      assert StepAt(h, i);
      EffectPcOk(h.states[i], t, h.acts[i].o);
    }
  }

  /** The first of the two steps. */
  lemma AgeJudgedNext(h: History, t: nat, c: Caller, p: nat, todo: seq<Protocol>, limit: int, w: int) returns (i: nat)
    requires Genuine(h) && t < |h.states[0].threads| && h.states[0].threads[t] == StillGood(c, p, todo, SgStale(limit))
    requires forall j :: 0 <= j <= |h.acts| ==> h.states[j].opt.stale == w
    ensures p < |h.states[0].proxies| && i <= |h.acts| && Waits(h, t, i)
    ensures i < |h.acts| ==>
              && IsStepOf(h, i, t) && t < |h.states[i + 1].threads|
              && Leaving(h.states[i + 1].threads[t], p, h.states[i].now - h.states[0].proxies[p].lastValidated <= w)
  {
    i := FirstStep(h, t);
    HeldRecordStays(h, t, p, i);
    if i < |h.acts| {
      InvAt(h, i);
      assert StepAt(h, i);
      AgeDecides(h.states[i], t, h.acts[i].o, c, p, todo, limit);
    }
  }

  /** As long as thread t stands in its critical section, its record is as it was. */
  lemma {:induction false} HeldRecordStays(h: History, t: nat, p: nat, i: nat)
    requires Genuine(h) && i <= |h.acts| && Waits(h, t, i) && Held(h.states[0].threads[t]) == Some(p)
    requires forall j :: 0 <= j < i ==> !IsStepOf(h, j, t)
    ensures p < |h.states[0].proxies| && p < |h.states[i].proxies|
    ensures h.states[i].proxies[p] == h.states[0].proxies[p]
  {
    if i == 0 {
      HeldIsLocked(h.states[0], t, p);
    } else {
      HeldRecordStays(h, t, p, i - 1);
      InvAt(h, i - 1);
      OtherStepLeavesRecord(h.states[i - 1], h.acts[i - 1], h.states[i], t, p) by {
        assert StepAt(h, i - 1);
        assert !IsStepOf(h, i - 1, t);
      }
    }
  }

  lemma OtherStepLeavesRecord(s: State, a: Action, s': State, t: nat, p: nat)
    requires Inv(s) && Follows(s, a, s') && t < |s.threads| && Held(s.threads[t]) == Some(p) && (a.Step? ==> a.t != t)
    ensures p < |s.proxies| && p < |s'.proxies| && s'.proxies[p] == s.proxies[p]
  {
    OtherLeavesRecordAlone(s, a, t, p);
  }

  /** With the stale time at w throughout, a proxy whose failures and limiter
      stillGood() has let pass is handed out iff its last validation is no older
      than w when stillGood() next gets to look: unless the thread stops in
      between, it leaves with the proxy, or rejects it, and unlocks it either way. */
  lemma YoungIsHandedOut(h: History, t: nat, c: Caller, p: nat, todo: seq<Protocol>, limit: int, w: int)
    returns (i: nat, j: nat)
    requires Genuine(h) && t < |h.states[0].threads| && h.states[0].threads[t] == StillGood(c, p, todo, SgStale(limit))
    requires forall n :: 0 <= n <= |h.acts| ==> h.states[n].opt.stale == w
    ensures p < |h.states[0].proxies| && i <= j <= |h.acts| && Waits(h, t, i)
    ensures i < |h.acts| ==> IsStepOf(h, i, t) && i < j
    ensures j < |h.acts| ==>
              LeavesAt(h, j, t, p, h.states[i].now - h.states[0].proxies[p].lastValidated <= w)
    ensures forall n :: i < n < j ==> !IsStepOf(h, n, t)
  {
    i := AgeJudgedNext(h, t, c, p, todo, limit, w);
    if i == |h.acts| {
      return i, i;
    }
    j := LeavesLater(h, i + 1, t, p, h.states[i].now - h.states[0].proxies[p].lastValidated <= w);
  }

  lemma LeavesLater(h: History, n: nat, t: nat, p: nat, kept: bool) returns (j: nat)
    requires Genuine(h) && n <= |h.acts| && t < |h.states[n].threads| && Leaving(h.states[n].threads[t], p, kept)
    ensures n <= j <= |h.acts| && (j < |h.acts| ==> LeavesAt(h, j, t, p, kept))
    ensures forall m :: n <= m < j ==> !IsStepOf(h, m, t)
  {
    RestIsGenuine(h, n);
    var k := LeavesNext(Rest(h, n), t, p, kept);
    j := n + k;
    forall m | n <= m < j ensures !IsStepOf(h, m, t) {
      assert !IsStepOf(Rest(h, n), m - n, t);
    }
  }

  // ---------------------------------------------------------------- nothing else is asked

  /** stillGood() on its way from the lock to handing p out. */
  predicate Passing(pc: PC, p: nat) {
    pc.StillGood? && pc.sock == p
    && (pc.q.SgCount? || pc.q.SgLimit? || pc.q.SgPeek? || pc.q.SgStale? || pc.q.SgKeep?)
  }

  /** Nothing is held against p: its failures are within limit b, or b is none, its age is at most w. */
  predicate Blameless(s: State, p: nat, b: int, w: int) {
    && p < |s.proxies| && (b == -1 || s.proxies[p].timesBad <= b) && s.now - s.proxies[p].lastValidated <= w
    && s.opt.recycle && s.opt.removeAfter == b && s.opt.stale == w
  }

  /** One step on that way, with a silent limiter. */
  lemma PassEffect(s: State, pc: PC, o: Oracle, p: nat, b: int, w: int)
    requires Passing(pc, p) && Blameless(s, p, b, w) && !o.yes && (b == -1 ==> !pc.q.SgLimit?) && PcOk(pc, |s.proxies|)
    ensures var e := ThreadEffect(s, pc, o);
            if pc.q.SgKeep? then
              e.op == Write(p, s.proxies[p].(locked := false)) && !e.pc.StillGood? && Carried(e.pc) == Some(p)
            else
              && e.op == Read && Passing(e.pc, p) && Rank(e.pc) < Rank(pc) && (b == -1 ==> !e.pc.q.SgLimit?)
  {
  }

  /** What the first action of a history does to a thread on that way. */
  lemma PassGoesOn(h: History, t: nat, p: nat, b: int, w: int)
    requires Genuine(h) && h.acts != [] && t < |h.states[0].threads| && Passing(h.states[0].threads[t], p)
    requires Blameless(h.states[0], p, b, w) && (b == -1 ==> !h.states[0].threads[t].q.SgLimit?)
    requires h.acts[0].Step? && h.acts[0].t == t ==> !h.acts[0].o.yes
    ensures || LeavesAt(h, 0, t, p, true)
            || (&& t < |h.states[1].threads| && Passing(h.states[1].threads[t], p)
                && (b == -1 ==> !h.states[1].threads[t].q.SgLimit?)
                && p < |h.states[1].proxies| && h.states[1].proxies[p] == h.states[0].proxies[p]
                && Rank(h.states[1].threads[t]) + (if IsStepOf(h, 0, t) then 1 else 0) <= Rank(h.states[0].threads[t]))
  {
    var s := h.states[0];
    assert StepAt(h, 0);
    if IsStepOf(h, 0, t) {
      EffectPcOk(s, t, h.acts[0].o);
      PassEffect(s, s.threads[t], h.acts[0].o, p, b, w);
    } else {
      OtherLeavesRecordAlone(s, h.acts[0], t, p);
    }
  }

  lemma {:induction false} ClockGoesOn(h: History, i: nat)
    requires Genuine(h) && i <= |h.acts|
    ensures h.states[0].now <= h.states[i].now
  {
    if i > 0 {
      ClockGoesOn(h, i - 1);
      InvAt(h, i - 1);
      StepTakesTime(h.states[i - 1], h.acts[i - 1], h.states[i]) by {
        assert StepAt(h, i - 1);
      }
    }
  }

  lemma StepTakesTime(s: State, a: Action, s': State)
    requires Inv(s) && Follows(s, a, s')
    ensures s.now <= s'.now
  {
    Lifecycle.NextIsLater(s, a);
  }

  /** Under a constant policy stillGood() asks for nothing but what it promises:
      a proxy whose lock it has taken, with no more than b failures, a silent
      limiter and an age still at most w at the end, is handed out once the thread has made its five steps. */
  lemma {:induction false} GoodIsHandedOut(h: History, t: nat, p: nat, b: int, w: int) returns (i: nat)
    requires Genuine(h) && KeepsPolicy(h, 0, b, w)
    requires t < |h.states[0].threads| && Passing(h.states[0].threads[t], p)
    requires b == -1 ==> !h.states[0].threads[t].q.SgLimit?
    requires p < |h.states[0].proxies| && (b == -1 || h.states[0].proxies[p].timesBad <= b)
    requires h.Last().now - h.states[0].proxies[p].lastValidated <= w
    requires forall j :: 0 <= j < |h.acts| && IsStepOf(h, j, t) ==> !h.acts[j].o.yes
    requires OwnSteps(h.acts, t) >= Rank(h.states[0].threads[t])
    ensures Rank(h.states[0].threads[t]) <= 5 && LeavesAt(h, i, t, p, true)
    decreases |h.acts|
  {
    ClockGoesOn(h, |h.acts|);
    if h.acts == [] {
      assert false;
    }
    assert IsStepOf(h, 0, t) ==> !h.acts[0].o.yes;
    PassGoesOn(h, t, p, b, w);
    if LeavesAt(h, 0, t, p, true) {
      return 0;
    }
    var later := GoodLater(h, t, p, b, w);
    i := later + 1;
  }

  lemma {:induction false} GoodLater(h: History, t: nat, p: nat, b: int, w: int) returns (i: nat)
    requires Genuine(h) && h.acts != [] && KeepsPolicy(h, 0, b, w)
    requires t < |h.states[1].threads| && Passing(h.states[1].threads[t], p)
    requires b == -1 ==> !h.states[1].threads[t].q.SgLimit?
    requires p < |h.states[1].proxies| && (b == -1 || h.states[1].proxies[p].timesBad <= b)
    requires h.Last().now - h.states[1].proxies[p].lastValidated <= w
    requires forall j :: 0 <= j < |h.acts| && IsStepOf(h, j, t) ==> !h.acts[j].o.yes
    requires OwnSteps(h.acts[1..], t) >= Rank(h.states[1].threads[t])
    ensures LeavesAt(Rest(h, 1), i, t, p, true)
    decreases |h.acts|, 0
  {
    RestIsGenuine(h, 1);
    var rest := Rest(h, 1);
    forall j | 0 <= j < |rest.acts| && IsStepOf(rest, j, t) ensures !rest.acts[j].o.yes {
      assert IsStepOf(h, j + 1, t);
    }
    i := GoodIsHandedOut(rest, t, p, b, w);
  }
}
