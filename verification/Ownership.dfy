/** The per-record compare-and-swap lock: in every reachable state a record is
    locked exactly when one thread is inside its critical section. */
module Ownership {
  import opened Proto
  import opened Machine
  import opened Meters

  ghost predicate Owned(s: State) {
    forall p: nat :: Sum(Holding(p), s.threads) == if LockedAt(s.proxies, p) then 1 else 0
  }

  /** A step that writes a record either holds its lock or has just found it
      unlocked and takes it; no other step enters or leaves a critical section,
      and a goroutine starts outside of all of them. */
  predicate UnderLock(s: State, pc: PC, e: Effect)
    requires OpOk(s, e.op)
  {
    && (e.born.Some? ==> Held(e.born.value) == None)
    && match e.op
       case Write(p, r) =>
         || (Held(pc) == Some(p) && s.proxies[p].locked && Held(e.pc) == (if r.locked then Some(p) else None))
         || (Held(pc) == None && !s.proxies[p].locked && Held(e.pc) == Some(p) && r == s.proxies[p].(locked := true))
       case _ => Held(e.pc) == Held(pc)
  }

  lemma HeldIsLocked(s: State, t: nat, p: nat)
    requires Owned(s) && t < |s.threads| && Held(s.threads[t]) == Some(p)
    ensures p < |s.proxies| && s.proxies[p].locked
  {
    SumCoversOne(Holding(p), s.threads, t);
  }

  /** No two threads are inside the same critical section. */
  lemma MutualExclusion(s: State, t: nat, u: nat, p: nat)
    requires Owned(s) && t < |s.threads| && u < |s.threads|
    requires Held(s.threads[t]) == Some(p) && Held(s.threads[u]) == Some(p)
    ensures t == u
  {
    if t != u {
      SumCovers(Holding(p), s.threads, t, u);
    }
  }

  /** A locked record has its holder. */
  lemma LockedIsHeld(s: State, p: nat) returns (t: nat)
    requires Owned(s) && p < |s.proxies| && s.proxies[p].locked
    ensures t < |s.threads| && Held(s.threads[t]) == Some(p)
  {
    t := SumFinds(Holding(p), s.threads);
  }

  lemma ValidatorUnderLock(s: State, pc: PC, o: Oracle)
    requires PcOk(pc, |s.proxies|) && OpOk(s, ThreadEffect(s, pc, o).op) && pc.Validator?
    requires Held(pc).Some? ==> s.proxies[pc.sock].locked
    ensures UnderLock(s, pc, ThreadEffect(s, pc, o))
  {
  }

  lemma StillGoodUnderLock(s: State, pc: PC, o: Oracle)
    requires PcOk(pc, |s.proxies|) && OpOk(s, ThreadEffect(s, pc, o).op) && pc.StillGood?
    requires Held(pc).Some? ==> s.proxies[pc.sock].locked
    ensures UnderLock(s, pc, ThreadEffect(s, pc, o))
  {
  }

  lemma DialerUnderLock(s: State, pc: PC, o: Oracle)
    requires PcOk(pc, |s.proxies|) && OpOk(s, ThreadEffect(s, pc, o).op) && pc.Dialer?
    requires Held(pc).Some? ==> s.proxies[pc.d.sock].locked
    ensures UnderLock(s, pc, ThreadEffect(s, pc, o))
  {
  }

  lemma OthersUnderLock(s: State, pc: PC, o: Oracle)
    requires PcOk(pc, |s.proxies|) && OpOk(s, ThreadEffect(s, pc, o).op)
    requires !pc.Validator? && !pc.StillGood? && !pc.Dialer?
    ensures UnderLock(s, pc, ThreadEffect(s, pc, o))
  {
  }

  lemma EffectUnderLock(s: State, t: nat, o: Oracle)
    requires WellFormed(s) && Enabled(s, Step(t, o)) && Owned(s)
    ensures var e := ThreadEffect(s, s.threads[t], o);
            OpOk(s, e.op) && UnderLock(s, s.threads[t], e)
  {
    EffectPcOk(s, t, o);
    var pc := s.threads[t];
    if Held(pc).Some? {
      HeldIsLocked(s, t, Held(pc).value);
    }
    match pc
    case Validator(_, _, _) => ValidatorUnderLock(s, pc, o);
    case StillGood(_, _, _, _) => StillGoodUnderLock(s, pc, o);
    case Dialer(_, _, _, _) => DialerUnderLock(s, pc, o);
    case _ => OthersUnderLock(s, pc, o);
  }

  predicate LockedAt(rs: seq<Proxy>, p: nat) {
    p < |rs| && rs[p].locked
  }

  lemma LockAfter(s: State, op: Op, p: nat)
    requires OpOk(s, op)
    ensures LockedAt(Perform(s, op).proxies, p)
         == if op.Write? && op.sock == p then op.rec.locked else LockedAt(s.proxies, p)
  {
  }

  /** The lock of p and the threads holding it move together. */
  lemma HoldingMoves(s: State, pc: PC, e: Effect, p: nat)
    requires OpOk(s, e.op) && UnderLock(s, pc, e)
    ensures Weight(Holding(p), e.pc) - Weight(Holding(p), pc)
         == (if e.op.Write? && e.op.sock == p
             then (if e.op.rec.locked then 1 else 0) - (if s.proxies[p].locked then 1 else 0) else 0)
    ensures e.born.Some? ==> Weight(Holding(p), e.born.value) == 0
  {
  }

  lemma ApplyKeepsOwned(s: State, t: nat, e: Effect)
    requires Owned(s) && t < |s.threads| && OpOk(s, e.op) && UnderLock(s, s.threads[t], e)
    ensures Owned(Apply(s, t, e))
  {
    var ts' := s.threads[t := e.pc] + Born(e.born);
    forall p: nat ensures Sum(Holding(p), ts') == if LockedAt(Perform(s, e.op).proxies, p) then 1 else 0 {
      assert Sum(Holding(p), s.threads) == if LockedAt(s.proxies, p) then 1 else 0;
      LockAfter(s, e.op, p);
      HoldingMoves(s, s.threads[t], e, p);
      SumApply(Holding(p), s.threads, t, e);
    }
  }

  lemma OwnedKept(s: State, a: Action)
    requires WellFormed(s) && Enabled(s, a) && Owned(s)
    ensures Owned(Next(s, a))
  {
    match a
    case Step(t, o) =>
      EffectUnderLock(s, t, o);
      ApplyKeepsOwned(s, t, ThreadEffect(s, s.threads[t], o));
    case Call(pc) =>
      forall p: nat ensures Sum(Holding(p), s.threads + [pc]) == Sum(Holding(p), s.threads) {
        SumAppend(Holding(p), s.threads, pc);
      }
    case _ =>
  }
}
