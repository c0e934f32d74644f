/** The books: conservation laws between the counters, the lists, the records
    and the threads in between. Each law is first balanced for a single step. */
module Accounts {
  import opened Proto
  import opened Machine
  import opened Meters
  import opened Facts

  /** A counter of validations lags behind the records by exactly the validators in between. */
  ghost predicate ValidBooks(s: State) {
    forall k: Protocol :: k != ProtoNull ==>
      s.stats.valid.Get(k) + Sum(Passed(k), s.threads) == Total(ValidOf(k), s.proxies)
  }

  /** What was counted valid or requeued is on the list, was popped from it, or is about to be pushed. */
  ghost predicate ListBooks(s: State) {
    forall k: Protocol :: k != ProtoNull ==>
      |s.valids.Get(k)| + s.log.pops.Get(k) + Sum(Counted(k), s.threads)
        == s.stats.valid.Get(k) + s.log.requeues.Get(k)
  }

  /** Every verdict has cost between one and three checks, while the engine is live no check is lost. */
  ghost predicate CheckBooks(s: State) {
    && Total(Verdicts, s.proxies) + Sum(Checks, s.threads) <= s.stats.checked
    && (!s.closed ==> s.stats.checked <= 3 * Total(Verdicts, s.proxies) + Sum(Checks, s.threads))
  }

  /** Dispensed counts completed calls, those of dialers and those that came back empty included. */
  ghost predicate DispenseBooks(s: State) {
    s.stats.dispensed == Sum(Gets, s.threads)
  }

  function Delta(m: Meter, pc: PC, e: Effect): int {
    Weight(m, e.pc) - Weight(m, pc) + (if e.born.Some? then Weight(m, e.born.value) else 0)
  }

  function Unit(b: bool): nat {
    if b then 1 else 0
  }

  /** The books of protocol k stay even over one step. */
  predicate EvenFor(s: State, pc: PC, e: Effect, k: Protocol)
    requires OpOk(s, e.op)
  {
    && Unit(e.op == CountValid(k)) + Delta(Passed(k), pc, e) == Moved(ValidOf(k), s, e.op)
    && Unit(e.op.PushValid? && e.op.proto == k) + Delta(Counted(k), pc, e) == Unit(e.op == CountValid(k))
  }

  predicate EvenChecks(s: State, pc: PC, e: Effect)
    requires OpOk(s, e.op)
  {
    && Moved(Verdicts, s, e.op) + Delta(Checks, pc, e) <= Unit(e.op.CountCheck?)
    && (!s.closed ==> Unit(e.op.CountCheck?) <= 3 * Moved(Verdicts, s, e.op) + Delta(Checks, pc, e))
  }

  predicate EvenGets(pc: PC, e: Effect) {
    Unit(e.op.CountDispensed?) == Delta(Gets, pc, e)
  }

  lemma CheckingEvenFor(s: State, pc: PC, o: Oracle, k: Protocol)
    requires Context(s, pc, o) && k != ProtoNull && pc.Validator?
    requires pc.v.Cas? || pc.v.Gate? || pc.v.Limits? || pc.v.Try? || pc.v.Probe? || pc.v.Count?
    ensures EvenFor(s, pc, ThreadEffect(s, pc, o), k)
  {
  }

  lemma JudgingEvenFor(s: State, pc: PC, o: Oracle, k: Protocol)
    requires Context(s, pc, o) && k != ProtoNull && pc.Validator?
    requires !pc.v.Cas? && !pc.v.Gate? && !pc.v.Limits? && !pc.v.Try? && !pc.v.Probe? && !pc.v.Count?
    ensures EvenFor(s, pc, ThreadEffect(s, pc, o), k)
  {
    var r := s.proxies[pc.sock];
    assert RecOk(r) && AsIfAlone(pc.entry, r, pc.v, s.closed);
    if pc.v.MarkGood? || pc.v.Tally? || pc.v.Push? {
      TallyingEvenFor(s, pc, o, k);
    }
  }

  /** From good() to the push. */
  lemma TallyingEvenFor(s: State, pc: PC, o: Oracle, k: Protocol)
    requires Context(s, pc, o) && k != ProtoNull && pc.Validator? && (pc.v.MarkGood? || pc.v.Tally? || pc.v.Push?)
    requires AsIfAlone(pc.entry, s.proxies[pc.sock], pc.v, s.closed)
    ensures EvenFor(s, pc, ThreadEffect(s, pc, o), k)
  {
  }

  lemma ValidatorEvenFor(s: State, pc: PC, o: Oracle, k: Protocol)
    requires Context(s, pc, o) && k != ProtoNull && pc.Validator?
    ensures EvenFor(s, pc, ThreadEffect(s, pc, o), k)
  {
    if pc.v.Cas? || pc.v.Gate? || pc.v.Limits? || pc.v.Try? || pc.v.Probe? || pc.v.Count? {
      CheckingEvenFor(s, pc, o, k);
    } else {
      JudgingEvenFor(s, pc, o, k);
    }
  }

  lemma PlainIsEven(s: State, pc: PC, e: Effect, k: Protocol)
    requires OpOk(s, e.op) && Plain(s, e) && !pc.Validator?
    ensures k != ProtoNull ==> EvenFor(s, pc, e, k)
    ensures EvenChecks(s, pc, e)
  {
  }

  lemma ValidatorEvenChecks(s: State, pc: PC, o: Oracle)
    requires Context(s, pc, o) && pc.Validator?
    ensures EvenChecks(s, pc, ThreadEffect(s, pc, o))
  {
    if pc.v.MarkBad? || pc.v.MarkGood? || pc.v.Fix? || pc.v.Stamp? || pc.v.Cas? || pc.v.Release? {
      WritingEvenChecks(s, pc, o);
    } else {
      ReadingEvenChecks(s, pc, o);
    }
  }

  lemma WritingEvenChecks(s: State, pc: PC, o: Oracle)
    requires Context(s, pc, o) && pc.Validator?
    requires pc.v.MarkBad? || pc.v.MarkGood? || pc.v.Fix? || pc.v.Stamp? || pc.v.Cas? || pc.v.Release?
    ensures EvenChecks(s, pc, ThreadEffect(s, pc, o))
  {
    assert pc.v.Cas? || AsIfAlone(pc.entry, s.proxies[pc.sock], pc.v, s.closed);
  }

  lemma ReadingEvenChecks(s: State, pc: PC, o: Oracle)
    requires Context(s, pc, o) && pc.Validator?
    requires !pc.v.MarkBad? && !pc.v.MarkGood? && !pc.v.Fix? && !pc.v.Stamp? && !pc.v.Cas? && !pc.v.Release?
    ensures EvenChecks(s, pc, ThreadEffect(s, pc, o))
  {
    assert AsIfAlone(pc.entry, s.proxies[pc.sock], pc.v, s.closed);
  }

  lemma DispenserEvenGets(s: State, pc: PC, o: Oracle)
    requires Context(s, pc, o) && (pc.GetAny? || pc.StillGood? || pc.GetStr?)
    ensures EvenGets(pc, ThreadEffect(s, pc, o))
  {
  }

  lemma DialerEvenGets(s: State, pc: PC, o: Oracle)
    requires Context(s, pc, o) && pc.Dialer?
    ensures EvenGets(pc, ThreadEffect(s, pc, o))
  {
  }

  lemma ValidatorEvenGets(s: State, pc: PC, o: Oracle)
    requires Context(s, pc, o) && pc.Validator?
    ensures EvenGets(pc, ThreadEffect(s, pc, o))
  {
    ValidatorTouches(s, pc.sock, pc.entry, pc.v, o);
  }

  lemma SchedulerEvenGets(s: State, pc: PC, o: Oracle)
    requires Context(s, pc, o) && (pc.Spawner? || pc.Recycler? || pc.Loader? || pc.Conductor?)
    ensures EvenGets(pc, ThreadEffect(s, pc, o))
  {
  }

  lemma StepEvenGets(s: State, pc: PC, o: Oracle)
    requires Context(s, pc, o) && !pc.Finished?
    ensures EvenGets(pc, ThreadEffect(s, pc, o))
  {
    match pc
    case Validator(_, _, _) => ValidatorEvenGets(s, pc, o);
    case GetAny(_, _) => DispenserEvenGets(s, pc, o);
    case StillGood(_, _, _, _) => DispenserEvenGets(s, pc, o);
    case GetStr(_, _) => DispenserEvenGets(s, pc, o);
    case Dialer(_, _, _, _) => DialerEvenGets(s, pc, o);
    case _ => SchedulerEvenGets(s, pc, o);
  }

  ghost predicate Books(s: State) {
    ValidBooks(s) && ListBooks(s) && CheckBooks(s) && DispenseBooks(s)
  }

  /** How an operation moves the numbers kept for protocol k. */
  lemma SlotMoves(s: State, op: Op, k: Protocol)
    requires OpOk(s, op) && k != ProtoNull
    ensures var s' := Perform(s, op);
            && s'.stats.valid.Get(k) == s.stats.valid.Get(k) + Unit(op == CountValid(k))
            && |s'.valids.Get(k)| + s'.log.pops.Get(k) - s'.log.requeues.Get(k)
               == |s.valids.Get(k)| + s.log.pops.Get(k) - s.log.requeues.Get(k) + Unit(op.PushValid? && op.proto == k)
  {
    ListAfter(s, op, k);
    NumbersAfter(s, op, k);
  }

  lemma NumbersAfter(s: State, op: Op, k: Protocol)
    requires OpOk(s, op) && k != ProtoNull
    ensures var s' := Perform(s, op);
            && s'.stats.valid.Get(k) == s.stats.valid.Get(k) + Unit(op == CountValid(k))
            && s'.log.pops.Get(k) == s.log.pops.Get(k) + Unit(op == PopValid(k))
            && s'.log.requeues.Get(k) == s.log.requeues.Get(k) + Unit(op.Requeue? && op.proto == k)
  {
  }

  lemma ApplyKeepsBooks(s: State, t: nat, e: Effect)
    requires t < |s.threads| && OpOk(s, e.op) && Books(s)
    requires forall k: Protocol :: k != ProtoNull ==> EvenFor(s, s.threads[t], e, k)
    requires EvenChecks(s, s.threads[t], e) && EvenGets(s.threads[t], e)
    ensures Books(Apply(s, t, e))
  {
    var s' := Apply(s, t, e);
    forall k: Protocol | k != ProtoNull
      ensures s'.stats.valid.Get(k) + Sum(Passed(k), s'.threads) == Total(ValidOf(k), s'.proxies)
      ensures |s'.valids.Get(k)| + s'.log.pops.Get(k) + Sum(Counted(k), s'.threads)
           == s'.stats.valid.Get(k) + s'.log.requeues.Get(k)
    {
      assert EvenFor(s, s.threads[t], e, k);
      SumApply(Passed(k), s.threads, t, e);
      SumApply(Counted(k), s.threads, t, e);
      TotalPerform(ValidOf(k), s, e.op);
      SlotMoves(s, e.op, k);
    }
    SumApply(Checks, s.threads, t, e);
    SumApply(Gets, s.threads, t, e);
    TotalPerform(Verdicts, s, e.op);
  }
}
