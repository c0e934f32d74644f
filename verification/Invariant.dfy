/** The joint invariant of all five files, and that every run keeps it. */
module Invariant {
  import opened Proto
  import opened Machine
  import opened Meters
  import opened Ownership
  import opened Facts
  import opened Accounts

  /** Thread pc is about to queue the record the map holds under endpoint. */
  predicate Queues(pc: PC, endpoint: string, p: nat) {
    pc == Loader(endpoint, LGet) || (pc.Loader? && pc.l == LAdd(p))
  }

  ghost predicate BeingLoaded(s: State, endpoint: string, p: nat) {
    exists t :: 0 <= t < |s.threads| && Queues(s.threads[t], endpoint, p)
  }

  /** The scheduler loses no known proxy. */
  ghost predicate NothingLost(s: State) {
    forall e :: e in s.plot ==> s.plot[e] in s.pending || BeingLoaded(s, e, s.plot[e])
  }

  ghost predicate Inv(s: State) {
    WellFormed(s) && Owned(s) && Informed(s) && SettledUnlessBusy(s) && Books(s) && NothingLost(s)
  }

  lemma InitialInv(now: nat)
    ensures Inv(Initial(now))
  {
    var s := Initial(now);
    assert s.threads == [] && s.proxies == [];
  }

  // ---------------------------------------------------------------- Informed

  lemma ContextHolds(s: State, t: nat, o: Oracle)
    requires WellFormed(s) && Informed(s) && Enabled(s, Step(t, o))
    ensures Context(s, s.threads[t], o)
  {
    EffectPcOk(s, t, o);
  }

  /** A record a validator finds unlocked is settled: whoever unsettles it holds the lock. */
  lemma UnlockedIsSettled(s: State, p: nat)
    requires Owned(s) && SettledUnlessBusy(s) && p < |s.proxies| && !s.closed && !s.proxies[p].locked
    ensures Settled(s.proxies[p])
  {
    if !Settled(s.proxies[p]) {
      var t := SumFinds(Unsettled(p), s.threads);
      HeldIsLocked(s, t, p);
    }
  }

  lemma StepGood(s: State, t: nat, o: Oracle)
    requires Inv(s) && Enabled(s, Step(t, o))
    ensures var e := ThreadEffect(s, s.threads[t], o);
            OpOk(s, e.op) && GoodEffect(s, e)
  {
    ContextHolds(s, t, o);
    var pc := s.threads[t];
    match pc
    case Validator(p, _, v) =>
      if !s.closed && !s.proxies[p].locked {
        UnlockedIsSettled(s, p);
      }
      ValidatorGood(s, pc, o);
    case GetAny(_, _) => GetAnyGood(s, pc, o);
    case StillGood(_, _, _, _) => StillGoodGood(s, pc, o);
    case GetStr(_, _) => GetStrGood(s, pc, o);
    case Dialer(_, _, _, _) => DialerGood(s, pc, o);
    case _ => SchedulerGood(s, pc, o);
  }

  /** Thread u, which takes no part in the step of t, keeps what it knows. */
  lemma BystanderKeeps(s: State, t: nat, e: Effect, u: nat)
    requires Owned(s) && t < |s.threads| && u < |s.threads| && u != t
    requires OpOk(s, e.op) && UnderLock(s, s.threads[t], e) && Later(s, Perform(s, e.op))
    requires Knows(s, s.threads[u])
    ensures Knows(Perform(s, e.op), s.threads[u])
  {
    var s' := Perform(s, e.op);
    if Held(s.threads[u]).Some? {
      var p := Held(s.threads[u]).value;
      HeldIsLocked(s, u, p);
      if e.op.Write? && e.op.sock == p {
        assert Held(s.threads[t]) == Some(p);
        MutualExclusion(s, t, u, p);
      }
      assert s'.proxies[p] == s.proxies[p];
    }
    KnowledgeStays(s, s', s.threads[u]);
  }

  lemma ThreadsDoNotMatter(s: State, ts: seq<PC>, pc: PC)
    requires Knows(s, pc)
    ensures Knows(s.(threads := ts), pc)
  {
  }

  lemma RecordsStayOk(s: State, op: Op)
    requires OpOk(s, op) && (op.Write? ==> RecOk(op.rec))
    requires forall p :: 0 <= p < |s.proxies| ==> RecOk(s.proxies[p])
    ensures forall p :: 0 <= p < |Perform(s, op).proxies| ==> RecOk(Perform(s, op).proxies[p])
  {
  }

  lemma ApplyKeepsInformed(s: State, t: nat, e: Effect)
    requires Owned(s) && Informed(s) && t < |s.threads|
    requires OpOk(s, e.op) && GoodEffect(s, e) && UnderLock(s, s.threads[t], e)
    ensures Informed(Apply(s, t, e))
  {
    var s1 := Perform(s, e.op);
    var ts' := s.threads[t := e.pc] + Born(e.born);
    PerformIsLater(s, e.op);
    forall u | 0 <= u < |ts'| ensures Knows(s1.(threads := ts'), ts'[u]) {
      if u == t {
      } else if u < |s.threads| {
        BystanderKeeps(s, t, e, u);
      } else {
        KnowledgeStays(s, s1, e.born.value);
      }
      ThreadsDoNotMatter(s1, ts', ts'[u]);
    }
    ListsStayTyped(s, e.op);
    RecordsStayOk(s, e.op);
    assert Apply(s, t, e) == s1.(threads := ts');
  }

  // ---------------------------------------------------------------- SettledUnlessBusy

  /** After the step, record p is settled, or a validator is busy with it, or nothing changed for it. */
  predicate Settles(s: State, pc: PC, e: Effect, p: nat)
    requires OpOk(s, e.op) && p < |s.proxies|
  {
    var r := if e.op.Write? && e.op.sock == p then e.op.rec else s.proxies[p];
    || Settled(r)
    || Weight(Unsettled(p), e.pc) == 1
    || (!Settled(s.proxies[p]) && Weight(Unsettled(p), pc) == 0)
  }

  lemma ValidatorSettles(s: State, pc: PC, o: Oracle, p: nat)
    requires Context(s, pc, o) && p < |s.proxies| && !s.closed && pc.Validator?
    ensures Settles(s, pc, ThreadEffect(s, pc, o), p)
  {
    ValidatorTouches(s, pc.sock, pc.entry, pc.v, o);
    if pc.sock == p && !pc.v.Cas? {
      assert RecOk(s.proxies[p]) && AsIfAlone(pc.entry, s.proxies[p], pc.v, s.closed);
    }
  }

  lemma StepSettles(s: State, pc: PC, o: Oracle, p: nat)
    requires Context(s, pc, o) && p < |s.proxies| && !s.closed
    ensures Settles(s, pc, ThreadEffect(s, pc, o), p)
  {
    if pc.Validator? {
      ValidatorSettles(s, pc, o, p);
    } else {
      OthersPlain(s, pc, o);
    }
  }

  /** Record p after an operation, if it was there before; a new one is settled. */
  lemma RecordAfter(s: State, op: Op, p: nat)
    requires OpOk(s, op) && p < |Perform(s, op).proxies|
    ensures p >= |s.proxies| ==> Settled(Perform(s, op).proxies[p])
    ensures p < |s.proxies| ==>
      Perform(s, op).proxies[p] == if op.Write? && op.sock == p then op.rec else s.proxies[p]
    ensures s.closed ==> Perform(s, op).closed
  {
  }

  lemma ApplyKeepsSettled(s: State, t: nat, e: Effect)
    requires SettledUnlessBusy(s) && t < |s.threads| && OpOk(s, e.op)
    requires !s.closed ==> forall p :: 0 <= p < |s.proxies| ==> Settles(s, s.threads[t], e, p)
    ensures SettledUnlessBusy(Apply(s, t, e))
  {
    var s1 := Perform(s, e.op);
    var ts' := s.threads[t := e.pc] + Born(e.born);
    forall p | 0 <= p < |s1.proxies| && !Settled(s1.proxies[p]) && !s1.closed ensures Sum(Unsettled(p), ts') >= 1 {
      RecordAfter(s, e.op, p);
      assert Settles(s, s.threads[t], e, p);
      SumApply(Unsettled(p), s.threads, t, e);
      SumCoversOne(Unsettled(p), s.threads, t);
    }
  }

  // ---------------------------------------------------------------- NothingLost

  lemma PendingOnlyGrows(s: State, op: Op)
    requires OpOk(s, op)
    ensures multiset(s.pending) <= multiset(Perform(s, op).pending)
    ensures |s.pending| <= |Perform(s, op).pending|
  {
    if op.Rotate? {
      assert s.pending == [s.pending[0]] + s.pending[1..];
    }
  }

  /** A record pc was about to queue is handed on or queued, a new one comes with its loader. */
  ghost predicate HandsOn(s: State, pc: PC, e: Effect)
    requires OpOk(s, e.op)
  {
    && (e.op.MapInsert? ==> e.pc == Loader(e.op.endpoint, LGet))
    && forall k :: k in s.plot && Queues(pc, k, s.plot[k]) ==>
         Queues(e.pc, k, s.plot[k]) || s.plot[k] in Perform(s, e.op).pending
  }

  lemma StepHandsOn(s: State, pc: PC, o: Oracle)
    requires PcOk(pc, |s.proxies|) && OpOk(s, ThreadEffect(s, pc, o).op)
    ensures HandsOn(s, pc, ThreadEffect(s, pc, o))
  {
    var e := ThreadEffect(s, pc, o);
    forall k | k in s.plot && Queues(pc, k, s.plot[k])
      ensures Queues(e.pc, k, s.plot[k]) || s.plot[k] in Perform(s, e.op).pending
    {
      if pc.l.LAdd? {
        assert Perform(s, e.op).pending[|s.pending|] == s.plot[k];
      }
    }
  }

  /** The map entry k after an operation that is not its own insertion was there before. */
  lemma OldEntry(s: State, op: Op, k: string)
    requires OpOk(s, op) && k in Perform(s, op).plot && op != MapInsert(k)
    ensures k in s.plot && s.plot[k] == Perform(s, op).plot[k]
  {
  }

  lemma ApplyLosesNothing(s: State, t: nat, e: Effect)
    requires NothingLost(s) && t < |s.threads| && OpOk(s, e.op) && HandsOn(s, s.threads[t], e)
    ensures NothingLost(Apply(s, t, e))
  {
    var s' := Apply(s, t, e);
    forall k | k in s'.plot ensures s'.plot[k] in s'.pending || BeingLoaded(s', k, s'.plot[k]) {
      if e.op == MapInsert(k) {
        assert Queues(s'.threads[t], k, s'.plot[k]);
      } else {
        OldEntry(s, e.op, k);
        StillQueued(s, t, e, k);
      }
    }
  }

  lemma StillQueued(s: State, t: nat, e: Effect, k: string)
    requires NothingLost(s) && t < |s.threads| && OpOk(s, e.op) && HandsOn(s, s.threads[t], e) && k in s.plot
    ensures s.plot[k] in Apply(s, t, e).pending || BeingLoaded(Apply(s, t, e), k, s.plot[k])
  {
    var s' := Apply(s, t, e);
    if s.plot[k] in s.pending {
      PendingOnlyGrows(s, e.op);
      assert s.plot[k] in multiset(s.pending);
    } else {
      var u :| 0 <= u < |s.threads| && Queues(s.threads[u], k, s.plot[k]);
      assert s'.threads[u] == if u == t then e.pc else s.threads[u];
    }
  }

  // ---------------------------------------------------------------- all together

  lemma StepIsEven(s: State, pc: PC, o: Oracle)
    requires Context(s, pc, o)
    ensures forall k: Protocol :: k != ProtoNull ==> EvenFor(s, pc, ThreadEffect(s, pc, o), k)
    ensures EvenChecks(s, pc, ThreadEffect(s, pc, o))
  {
    var e := ThreadEffect(s, pc, o);
    if pc.Validator? {
      ValidatorEvenChecks(s, pc, o);
    } else {
      OthersPlain(s, pc, o);
      PlainIsEven(s, pc, e, ProtoNull);
    }
    forall k: Protocol | k != ProtoNull ensures EvenFor(s, pc, e, k) {
      if pc.Validator? {
        ValidatorEvenFor(s, pc, o, k);
      } else {
        PlainIsEven(s, pc, e, k);
      }
    }
  }

  lemma StepKeepsInv(s: State, t: nat, o: Oracle)
    requires Inv(s) && Enabled(s, Step(t, o))
    ensures Inv(Next(s, Step(t, o)))
  {
    NextKeepsWellFormed(s, Step(t, o));
    OwnedKept(s, Step(t, o));
    EffectUnderLock(s, t, o);
    StepGood(s, t, o);
    var pc := s.threads[t];
    var e := ThreadEffect(s, pc, o);
    ApplyKeepsInformed(s, t, e);
    ContextHolds(s, t, o);
    forall p | 0 <= p < |s.proxies| && !s.closed ensures Settles(s, pc, e, p) {
      StepSettles(s, pc, o, p);
    }
    ApplyKeepsSettled(s, t, e);
    StepIsEven(s, pc, o);
    StepEvenGets(s, pc, o);
    ApplyKeepsBooks(s, t, e);
    StepHandsOn(s, pc, o);
    ApplyLosesNothing(s, t, e);
  }

  lemma CallKeepsSums(s: State, pc: PC)
    requires Entry(pc)
    ensures forall m :: Sum(m, s.threads + [pc]) == Sum(m, s.threads)
  {
    forall m ensures Sum(m, s.threads + [pc]) == Sum(m, s.threads) {
      SumAppend(m, s.threads, pc);
      assert Weight(m, pc) == 0;
    }
  }

  lemma CallKeepsInformed(s: State, pc: PC)
    requires Informed(s) && Entry(pc)
    ensures Informed(s.(threads := s.threads + [pc]))
  {
    var s' := s.(threads := s.threads + [pc]);
    forall u | 0 <= u < |s'.threads| ensures Knows(s', s'.threads[u]) {
      if u < |s.threads| {
        ThreadsDoNotMatter(s, s'.threads, s.threads[u]);
      }
    }
    assert TypedLists(s');
  }

  lemma CallLosesNothing(s: State, pc: PC)
    requires NothingLost(s)
    ensures NothingLost(s.(threads := s.threads + [pc]))
  {
    var s' := s.(threads := s.threads + [pc]);
    forall e | e in s'.plot ensures s'.plot[e] in s'.pending || BeingLoaded(s', e, s'.plot[e]) {
      if s.plot[e] !in s.pending {
        var u :| 0 <= u < |s.threads| && Queues(s.threads[u], e, s.plot[e]);
        assert s'.threads[u] == s.threads[u];
      }
    }
  }

  lemma CallKeepsInv(s: State, pc: PC)
    requires Inv(s) && Entry(pc)
    ensures Inv(Next(s, Call(pc)))
  {
    NextKeepsWellFormed(s, Call(pc));
    OwnedKept(s, Call(pc));
    CallKeepsSums(s, pc);
    CallKeepsInformed(s, pc);
    CallLosesNothing(s, pc);
  }

  /** The clock, a setter or a cleared map: nothing a thread relies on is taken away. */
  lemma OutsideKeepsInformed(s: State, a: Action)
    requires Inv(s) && Enabled(s, a) && !a.Step? && !a.Call?
    ensures Informed(Next(s, a))
  {
    var s' := Next(s, a);
    assert s'.proxies == s.proxies && s'.valids == s.valids && s'.threads == s.threads && Later(s, s');
    forall u | 0 <= u < |s'.threads| ensures Knows(s', s'.threads[u]) {
      KnowledgeStays(s, s', s.threads[u]);
    }
    assert TypedLists(s');
  }

  lemma OutsideLosesNothing(s: State, a: Action)
    requires NothingLost(s) && WellFormed(s) && Enabled(s, a) && !a.Step? && !a.Call?
    ensures NothingLost(Next(s, a))
  {
    var s' := Next(s, a);
    forall e | e in s'.plot ensures s'.plot[e] in s'.pending || BeingLoaded(s', e, s'.plot[e]) {
      assert e in s.plot && s.plot[e] == s'.plot[e];
      if s.plot[e] !in s.pending {
        var u :| 0 <= u < |s.threads| && Queues(s.threads[u], e, s.plot[e]);
        assert s'.threads[u] == s.threads[u];
      }
    }
  }

  lemma OutsideKeepsInv(s: State, a: Action)
    requires Inv(s) && Enabled(s, a) && !a.Step? && !a.Call?
    ensures Inv(Next(s, a))
  {
    NextKeepsWellFormed(s, a);
    OwnedKept(s, a);
    OutsideKeepsInformed(s, a);
    OutsideLosesNothing(s, a);
  }

  /** Every step of every interleaving keeps the joint invariant. */
  lemma NextKeepsInv(s: State, a: Action)
    requires Inv(s) && Enabled(s, a)
    ensures Inv(Next(s, a))
  {
    match a
    case Step(t, o) => StepKeepsInv(s, t, o);
    case Call(pc) => CallKeepsInv(s, pc);
    case _ => OutsideKeepsInv(s, a);
  }
}
