/** Bounds on mysteryDialer, and when getSocksStr dereferences nil. */
module Dialing {
  import opened Proto
  import opened Machine
  import opened Meters
  import opened Facts
  import opened Invariant
  import opened Runs
  import opened Histories

  // ---------------------------------------------------------------- the bailout

  function Max0(b: int): nat {
    if b < 0 then 0 else b + 1
  }

  function AttemptsOf(pc: PC): nat {
    match pc
    case Dialer(_, m, _, _) => m
    case GetAny(c, _) => if c.Dial? then c.attempts else 0
    case StillGood(c, _, _, _) => if c.Dial? then c.attempts else 0
    case Finished(GotConn(_, m, _)) => m
    case Finished(DialFailed(_, m, _)) => m
    case _ => 0
  }

  /** A dialer past the test at the head of its loop has at most b failures behind it. */
  predicate WithinBailout(pc: PC, b: int) {
    && AttemptsOf(pc) <= Max0(b)
    && (pc.Dialer? ==> pc.count == pc.attempts)
    && (pc.GetAny? && pc.caller.Dial? ==> pc.caller.count == pc.caller.attempts <= b)
    && (pc.StillGood? && pc.caller.Dial? ==> pc.caller.count == pc.caller.attempts <= b)
    && (pc.Dialer? && !pc.d.DEnter? && !pc.d.DHead? ==> pc.count <= b)
  }

  ghost predicate KeepsBailout(acts: seq<Action>, b: int) {
    forall i :: 0 <= i < |acts| && acts[i].Configure? ==> acts[i].opt.bailout == b
  }

  lemma StepWithinBailout(s: State, pc: PC, o: Oracle)
    requires PcOk(pc, |s.proxies|) && WithinBailout(pc, s.opt.bailout)
    ensures WithinBailout(ThreadEffect(s, pc, o).pc, s.opt.bailout)
    ensures ThreadEffect(s, pc, o).born.Some? ==> WithinBailout(ThreadEffect(s, pc, o).born.value, s.opt.bailout)
  {
    if pc.Dialer? {
      DialerWithinBailout(s, pc, o);
    } else if pc.GetAny? || pc.StillGood? {
      AskerWithinBailout(s, pc, o);
    }
  }

  lemma DialerWithinBailout(s: State, pc: PC, o: Oracle)
    requires PcOk(pc, |s.proxies|) && WithinBailout(pc, s.opt.bailout) && pc.Dialer?
    ensures WithinBailout(ThreadEffect(s, pc, o).pc, s.opt.bailout) && ThreadEffect(s, pc, o).born == None
  {
  }

  lemma AskerWithinBailout(s: State, pc: PC, o: Oracle)
    requires PcOk(pc, |s.proxies|) && WithinBailout(pc, s.opt.bailout) && (pc.GetAny? || pc.StillGood?)
    ensures WithinBailout(ThreadEffect(s, pc, o).pc, s.opt.bailout) && ThreadEffect(s, pc, o).born == None
  {
  }

  lemma NextWithinBailout(s: State, a: Action, b: int, from: nat)
    requires WellFormed(s) && Enabled(s, a) && s.opt.bailout == b
    requires a.Configure? ==> a.opt.bailout == b
    requires forall t :: from <= t < |s.threads| ==> WithinBailout(s.threads[t], b)
    ensures Next(s, a).opt.bailout == b
    ensures forall t :: from <= t < |Next(s, a).threads| && t < |s.threads| ==> WithinBailout(Next(s, a).threads[t], b)
    ensures forall t :: |s.threads| <= t < |Next(s, a).threads| ==> WithinBailout(Next(s, a).threads[t], b)
  {
    if a.Step? {
      EffectPcOk(s, a.t, a.o);
      OpKeepsOptions(s, ThreadEffect(s, s.threads[a.t], a.o).op);
      BornWithinBailout(s, s.threads[a.t], a.o);
      if from <= a.t {
        StepWithinBailout(s, s.threads[a.t], a.o);
      }
    }
  }

  lemma OpKeepsOptions(s: State, op: Op)
    requires OpOk(s, op)
    ensures Perform(s, op).opt == s.opt
  {
  }

  lemma BornWithinBailout(s: State, pc: PC, o: Oracle)
    requires PcOk(pc, |s.proxies|)
    ensures ThreadEffect(s, pc, o).born.Some? ==> WithinBailout(ThreadEffect(s, pc, o).born.value, s.opt.bailout)
  {
  }

  lemma {:induction false} RunWithinBailout(s: State, acts: seq<Action>, b: int, from: nat)
    requires WellFormed(s) && Legal(s, acts) && s.opt.bailout == b && KeepsBailout(acts, b) && from <= |s.threads|
    requires forall t :: from <= t < |s.threads| ==> WithinBailout(s.threads[t], b)
    ensures forall t :: from <= t < |Exec(s, acts).threads| ==> WithinBailout(Exec(s, acts).threads[t], b)
    decreases |acts|
  {
    if acts != [] {
      NextKeepsWellFormed(s, acts[0]);
      NextWithinBailout(s, acts[0], b, from);
      RunWithinBailout(Next(s, acts[0]), acts[1..], b, from);
    }
  }

  /** With the bailout at b throughout, a Dial call begun in the run makes at
      most max(0, b + 1) dial attempts, and every connection took at least one. */
  lemma DialAttemptsBounded(s: State, acts: seq<Action>, b: int, t: nat)
    requires Reachable(s) && WellFormed(s) && Legal(s, acts) && s.opt.bailout == b && KeepsBailout(acts, b)
    requires |s.threads| <= t < |Exec(s, acts).threads|
    ensures AttemptsOf(Exec(s, acts).threads[t]) <= (if b < 0 then 0 else b + 1)
    ensures Exec(s, acts).threads[t].Finished? && Exec(s, acts).threads[t].out.GotConn? ==>
              1 <= Exec(s, acts).threads[t].out.attempts <= b + 1
  {
    RunWithinBailout(s, acts, b, |s.threads|);
    ReachableInv(s);
    RunKeepsInv(s, acts);
    assert Knows(Exec(s, acts), Exec(s, acts).threads[t]);
  }

  // ---------------------------------------------------------------- the lock or the list

  /** At step i the dialer takes the lock it found free. */
  predicate LocksAt(h: History, i: nat, t: nat, p: nat)
    requires h.Shaped()
  {
    && IsStepOf(h, i, t) && p < |h.states[i].proxies| && !h.states[i].proxies[p].locked
    && h.states[i + 1].proxies == h.states[i].proxies[p := h.states[i].proxies[p].(locked := true)]
    && t < |h.states[i + 1].threads| && Held(h.states[i + 1].threads[t]) == Some(p)
  }

  /** At step i it puts the proxy at the back of the list of the proxy's protocol. */
  predicate RequeuesAt(h: History, i: nat, t: nat, p: nat)
    requires h.Shaped()
  {
    && IsStepOf(h, i, t) && p < |h.states[i].proxies|
    && var k := h.states[i].proxies[p].Protocol();
       k != ProtoNull && h.states[i + 1].valids == h.states[i].valids.Set(k, h.states[i].valids.Get(k) + [p])
  }

  /** It does the one or the other in this history. */
  ghost predicate Decides(h: History, t: nat, p: nat)
    requires h.Shaped()
  {
    (exists i :: LocksAt(h, i, t, p)) || (exists i :: RequeuesAt(h, i, t, p))
  }

  predicate Undecided(pc: PC, p: nat) {
    pc.Dialer? && (pc.d == DCas(p) || pc.d == DRequeue(p))
  }

  lemma DialerDecides(s: State, t: nat, o: Oracle, p: nat)
    requires Inv(s) && Enabled(s, Step(t, o)) && Undecided(s.threads[t], p)
    ensures p < |s.proxies| && s.proxies[p].Protocol() != ProtoNull
    ensures var s' := Next(s, Step(t, o));
            var k := s.proxies[p].Protocol();
            && t < |s'.threads|
            && if s.threads[t].d.DRequeue? then s'.valids == s.valids.Set(k, s.valids.Get(k) + [p])
               else if s.proxies[p].locked then s'.threads[t].Dialer? && s'.threads[t].d == DRequeue(p)
               else && s'.proxies == s.proxies[p := s.proxies[p].(locked := true)]
                    && Held(s'.threads[t]) == Some(p)
  {
    EffectPcOk(s, t, o);
    assert Knows(s, s.threads[t]);
  }

  /** A proxy that a dialer is about to lock is not lost: unless the dialer has
      not got round to it, it has locked the proxy or put it back on the list of its protocol. */
  lemma {:induction false} LockedOrRequeued(h: History, t: nat, p: nat)
    requires Genuine(h) && t < |h.states[0].threads| && Undecided(h.states[0].threads[t], p)
    ensures (t < |h.Last().threads| && Undecided(h.Last().threads[t], p)) || Decides(h, t, p)
    decreases |h.acts|
  {
    var i := FirstStep(h, t);
    if i < |h.acts| {
      FirstDecision(h, t, p, i);
      if !Decides(h, t, p) {
        RestIsGenuine(h, i + 1);
        LockedOrRequeued(Rest(h, i + 1), t, p);
        CarryBack(h, i + 1, t, p);
      }
    }
  }

  lemma FirstDecision(h: History, t: nat, p: nat, i: nat)
    requires Genuine(h) && t < |h.states[0].threads| && Undecided(h.states[0].threads[t], p)
    requires i < |h.acts| && Waits(h, t, i) && IsStepOf(h, i, t)
    ensures Decides(h, t, p) || (t < |h.states[i + 1].threads| && Undecided(h.states[i + 1].threads[t], p))
  {
    InvAt(h, i);
    assert StepAt(h, i);
    DialerDecides(h.states[i], t, h.acts[i].o, p);
    assert || LocksAt(h, i, t, p) || RequeuesAt(h, i, t, p)
           || (t < |h.states[i + 1].threads| && Undecided(h.states[i + 1].threads[t], p));
  }

  lemma CarryBack(h: History, n: nat, t: nat, p: nat)
    requires h.Shaped() && n <= |h.acts|
    ensures Decides(Rest(h, n), t, p) ==> Decides(h, t, p)
  {
    var rest := Rest(h, n);
    if i: nat :| LocksAt(rest, i, t, p) {
      assert LocksAt(h, n + i, t, p);
    } else if i: nat :| RequeuesAt(rest, i, t, p) {
      assert RequeuesAt(h, n + i, t, p);
    }
  }

  /** GetAnySOCKS() has just handed p to a dialer. */
  predicate HandedTo(pc: PC, p: nat) {
    pc.Dialer? && pc.d == DGot(Some(p))
  }

  /** At step i the dialer finds its context done and returns, without the lock
      of the proxy it was handed and without putting it back on any list. */
  predicate DropsAt(h: History, i: nat, t: nat, p: nat)
    requires h.Shaped()
  {
    && IsStepOf(h, i, t) && h.acts[i].o.yes
    && t < |h.states[i].threads| && HandedTo(h.states[i].threads[t], p)
    && h.states[i + 1].valids == h.states[i].valids && h.states[i + 1].proxies == h.states[i].proxies
    && t < |h.states[i + 1].threads| && h.states[i + 1].threads[t].Finished?
    && h.states[i + 1].threads[t].out.DialFailed? && h.states[i + 1].threads[t].out.why == Cancelled
  }

  lemma DialerAccepts(s: State, t: nat, o: Oracle, p: nat)
    requires Inv(s) && Enabled(s, Step(t, o)) && HandedTo(s.threads[t], p)
    ensures var s' := Next(s, Step(t, o));
            && t < |s'.threads| && s'.valids == s.valids && s'.proxies == s.proxies
            && if o.yes
               then s'.threads[t].Finished? && s'.threads[t].out.DialFailed? && s'.threads[t].out.why == Cancelled
               else Undecided(s'.threads[t], p)
  {
    EffectPcOk(s, t, o);
  }

  /** What becomes of a proxy handed to a dialer: unless the dialer has not got
      round to it, it locks the proxy, or puts it back on the list of its
      protocol, or its context is done and it drops the proxy. */
  lemma LockedRequeuedOrDropped(h: History, t: nat, p: nat)
    requires Genuine(h) && t < |h.states[0].threads| && HandedTo(h.states[0].threads[t], p)
    ensures || (t < |h.Last().threads| && (HandedTo(h.Last().threads[t], p) || Undecided(h.Last().threads[t], p)))
            || Decides(h, t, p)
            || (exists i :: DropsAt(h, i, t, p))
  {
    var i := FirstStep(h, t);
    if i < |h.acts| {
      InvAt(h, i);
      assert StepAt(h, i);
      DialerAccepts(h.states[i], t, h.acts[i].o, p);
      if h.acts[i].o.yes {
        assert DropsAt(h, i, t, p);
      } else {
        RestIsGenuine(h, i + 1);
        LockedOrRequeued(Rest(h, i + 1), t, p);
        CarryBack(h, i + 1, t, p);
      }
    }
  }

  // ---------------------------------------------------------------- getSocksStr and the drained list

  ghost predicate Pops(s: State, a: Action, k: Protocol)
    requires WellFormed(s) && Enabled(s, a)
  {
    a.Step? && ThreadEffect(s, s.threads[a.t], a.o).op == PopValid(k)
  }

  /** Nobody takes from list k during the run. */
  ghost predicate Unpopped(s: State, acts: seq<Action>, k: Protocol)
    requires WellFormed(s) && Legal(s, acts)
    decreases |acts|
  {
    acts == [] ||
    (!Pops(s, acts[0], k) && (NextKeepsWellFormed(s, acts[0]); Unpopped(Next(s, acts[0]), acts[1..], k)))
  }

  /** The nil dereference of getSocksStr happens iff the list is empty when it removes. */
  lemma DrainedIffEmpty(s: State, t: nat, o: Oracle, k: Protocol)
    requires WellFormed(s) && t < |s.threads| && s.threads[t] == GetStr(k, StrRemove) && Enabled(s, Step(t, o))
    ensures k != ProtoNull
    ensures Next(s, Step(t, o)).threads[t] == Finished(Drained(k)) <==> s.valids.Get(k) == []
  {
    assert PcOk(s.threads[t], |s.proxies|);
  }

  lemma UnpoppedOnlyGrows(s: State, op: Op, k: Protocol)
    requires OpOk(s, op) && k != ProtoNull && op != PopValid(k)
    ensures s.valids.Get(k) <= Perform(s, op).valids.Get(k)
  {
  }

  lemma {:induction false} UnpoppedRunOnlyGrows(s: State, acts: seq<Action>, k: Protocol)
    requires WellFormed(s) && Legal(s, acts) && k != ProtoNull && Unpopped(s, acts, k)
    ensures s.valids.Get(k) <= Exec(s, acts).valids.Get(k)
    decreases |acts|
  {
    if acts != [] {
      var s1 := Next(s, acts[0]);
      NextKeepsWellFormed(s, acts[0]);
      if acts[0].Step? {
        EffectPcOk(s, acts[0].t, acts[0].o);
        UnpoppedOnlyGrows(s, ThreadEffect(s, s.threads[acts[0].t], acts[0].o).op, k);
      }
      UnpoppedRunOnlyGrows(s1, acts[1..], k);
    }
  }

  /** A caller that saw the list non-empty is safe as long as nobody else takes from that list before it removes. */
  lemma SoleConsumerNeverDrains(s: State, t: nat, o: Oracle, k: Protocol, acts: seq<Action>, o': Oracle)
    requires WellFormed(s) && t < |s.threads| && s.threads[t] == GetStr(k, StrLoop) && Enabled(s, Step(t, o))
    requires Next(s, Step(t, o)).threads[t] == GetStr(k, StrRemove)
    requires var s1 := Next(s, Step(t, o));
             WellFormed(s1) && Legal(s1, acts) && k != ProtoNull && Unpopped(s1, acts, k)
    requires var s2 := Exec(Next(s, Step(t, o)), acts);
             WellFormed(s2) && t < |s2.threads| && s2.threads[t] == GetStr(k, StrRemove) && Enabled(s2, Step(t, o'))
    ensures Next(Exec(Next(s, Step(t, o)), acts), Step(t, o')).threads[t] != Finished(Drained(k))
  {
    var s1 := Next(s, Step(t, o));
    UnpoppedRunOnlyGrows(s1, acts, k);
    DrainedIffEmpty(Exec(s1, acts), t, o', k);
  }

  /** A getSocksStr call that sees a list which is not empty goes on to remove. */
  lemma SeesList(s: State, t: nat, k: Protocol, o: Oracle)
    requires WellFormed(s) && t < |s.threads| && s.threads[t] == GetStr(k, StrLoop) && k != ProtoNull
    requires |s.valids.Get(k)| > 0
    ensures Enabled(s, Step(t, o))
    ensures Next(s, Step(t, o)) == s.(threads := s.threads[t := GetStr(k, StrRemove)])
  {
    assert s.threads[t := GetStr(k, StrRemove)] + [] == s.threads[t := GetStr(k, StrRemove)];
  }

  lemma TakesLast(s: State, t: nat, u: nat, k: Protocol, o: Oracle)
    requires WellFormed(s) && t < |s.threads| && u < |s.threads| && t != u && k != ProtoNull
    requires s.threads[t] == GetStr(k, StrRemove) && |s.valids.Get(k)| == 1
    ensures Enabled(s, Step(t, o))
    ensures var s' := Next(s, Step(t, o));
            s'.valids.Get(k) == [] && u < |s'.threads| && s'.threads[u] == s.threads[u]
  {
  }

  /** Both are about to remove. */
  lemma OneTakesOneCrashes(s: State, t: nat, u: nat, k: Protocol, o: Oracle)
    requires WellFormed(s) && t < |s.threads| && u < |s.threads| && t != u && k != ProtoNull
    requires s.threads[t] == GetStr(k, StrRemove) && s.threads[u] == GetStr(k, StrRemove)
    requires |s.valids.Get(k)| == 1
    ensures var acts := [Step(t, o)] + [Step(u, o)];
            Legal(s, acts) && u < |Exec(s, acts).threads| && Exec(s, acts).threads[u] == Finished(Drained(k))
  {
    TakesLast(s, t, u, k, o);
    NextKeepsWellFormed(s, Step(t, o));
    var s1 := Next(s, Step(t, o));
    assert Enabled(s1, Step(u, o));
    DrainedIffEmpty(s1, u, o, k);
    OneStep(s1, Step(u, o));
    StepFirst(s, Step(t, o), [Step(u, o)]);
  }

  /** Two callers of one list that holds a single proxy: both see it, one takes it, the other dereferences nil. */
  lemma TwoCallersCanDrain(s: State, t: nat, u: nat, k: Protocol, o: Oracle)
    requires WellFormed(s) && t < |s.threads| && u < |s.threads| && t != u && k != ProtoNull
    requires s.threads[t] == GetStr(k, StrLoop) && s.threads[u] == GetStr(k, StrLoop)
    requires |s.valids.Get(k)| == 1
    ensures exists acts :: Legal(s, acts) && u < |Exec(s, acts).threads|
                           && Exec(s, acts).threads[u] == Finished(Drained(k))
  {
    SeesList(s, t, k, o);
    NextKeepsWellFormed(s, Step(t, o));
    var s1 := Next(s, Step(t, o));
    SeesList(s1, u, k, o);
    NextKeepsWellFormed(s1, Step(u, o));
    var s2 := Next(s1, Step(u, o));
    OneTakesOneCrashes(s2, t, u, k, o);
    StepFirst(s1, Step(u, o), [Step(t, o)] + [Step(u, o)]);
    StepFirst(s, Step(t, o), [Step(u, o)] + ([Step(t, o)] + [Step(u, o)]));
  }
}
