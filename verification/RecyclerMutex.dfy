/** recycleMu of daemons.go: one recycler at a time. */
module RecyclerMutex {
  import opened Machine
  import opened Meters
  import opened Runs

  /** The mutex is held exactly while one recycler is past TryLock. */
  predicate MutexOwned(s: State) {
    Sum(Refilling, s.threads) == if s.recycleMu then 1 else 0
  }

  /** The mutex moves with the recyclers. */
  predicate MovesMutex(s: State, pc: PC, e: Effect) {
    && (e.born.Some? ==> Weight(Refilling, e.born.value) == 0)
    && match e.op
       case SetRecycleMu(held) =>
         if held then !s.recycleMu && Weight(Refilling, pc) == 0 && Weight(Refilling, e.pc) == 1
         else Weight(Refilling, pc) == 1 && Weight(Refilling, e.pc) == 0
       case _ => Weight(Refilling, e.pc) == Weight(Refilling, pc)
  }

  lemma RecyclerMoves(s: State, pc: PC, o: Oracle)
    requires PcOk(pc, |s.proxies|) && pc.Recycler?
    ensures MovesMutex(s, pc, ThreadEffect(s, pc, o))
  {
  }

  lemma GettersMoveNothing(s: State, pc: PC, o: Oracle)
    requires PcOk(pc, |s.proxies|) && (pc.GetAny? || pc.StillGood? || pc.GetStr? || pc.Dialer?)
    ensures MovesMutex(s, pc, ThreadEffect(s, pc, o))
  {
  }

  lemma RestMovesNothing(s: State, pc: PC, o: Oracle)
    requires PcOk(pc, |s.proxies|)
    requires pc.Validator? || pc.Spawner? || pc.Loader? || pc.Conductor? || pc.Finished?
    ensures MovesMutex(s, pc, ThreadEffect(s, pc, o))
  {
  }

  lemma StepMoves(s: State, pc: PC, o: Oracle)
    requires PcOk(pc, |s.proxies|)
    ensures MovesMutex(s, pc, ThreadEffect(s, pc, o))
  {
    match pc
    case Recycler(_) => RecyclerMoves(s, pc, o);
    case GetAny(_, _) => GettersMoveNothing(s, pc, o);
    case StillGood(_, _, _, _) => GettersMoveNothing(s, pc, o);
    case GetStr(_, _) => GettersMoveNothing(s, pc, o);
    case Dialer(_, _, _, _) => GettersMoveNothing(s, pc, o);
    case _ => RestMovesNothing(s, pc, o);
  }

  lemma ApplyKeepsMutex(s: State, t: nat, e: Effect)
    requires MutexOwned(s) && t < |s.threads| && OpOk(s, e.op) && MovesMutex(s, s.threads[t], e)
    ensures MutexOwned(Apply(s, t, e))
  {
    SumApply(Refilling, s.threads, t, e);
  }

  lemma NextKeepsMutex(s: State, a: Action)
    requires WellFormed(s) && Enabled(s, a) && MutexOwned(s)
    ensures MutexOwned(Next(s, a))
  {
    match a
    case Step(t, o) =>
      EffectPcOk(s, t, o);
      StepMoves(s, s.threads[t], o);
      ApplyKeepsMutex(s, t, ThreadEffect(s, s.threads[t], o));
    case Call(pc) => SumAppend(Refilling, s.threads, pc);
    case _ =>
  }

  lemma {:induction false} RunKeepsMutex(s: State, acts: seq<Action>)
    requires WellFormed(s) && Legal(s, acts) && MutexOwned(s)
    ensures MutexOwned(Exec(s, acts))
    decreases |acts|
  {
    if acts != [] {
      NextKeepsWellFormed(s, acts[0]);
      NextKeepsMutex(s, acts[0]);
      RunKeepsMutex(Next(s, acts[0]), acts[1..]);
    }
  }

  /** In every reachable state the mutex is held iff some recycler is past
      TryLock, and then only one is: no two refill Pending at the same time. */
  lemma OneRecyclerAtATime(s: State)
    requires Reachable(s)
    ensures s.recycleMu <==> exists t :: 0 <= t < |s.threads| && Weight(Refilling, s.threads[t]) == 1
    ensures forall t, u | 0 <= t < |s.threads| && 0 <= u < |s.threads| ::
              Weight(Refilling, s.threads[t]) == 1 && Weight(Refilling, s.threads[u]) == 1 ==> t == u
  {
    var now: nat, acts :| WellFormed(Initial(now)) && Legal(Initial(now), acts) && s == Exec(Initial(now), acts);
    RunKeepsMutex(Initial(now), acts);
    if s.recycleMu {
      var t := SumFinds(Refilling, s.threads);
    }
    forall t | 0 <= t < |s.threads| && Weight(Refilling, s.threads[t]) == 1 ensures s.recycleMu {
      SumCoversOne(Refilling, s.threads, t);
    }
    forall t, u | 0 <= t < |s.threads| && 0 <= u < |s.threads|
      && Weight(Refilling, s.threads[t]) == 1 && Weight(Refilling, s.threads[u]) == 1 ensures t == u
    {
      if t != u {
        SumCovers(Refilling, s.threads, t, u);
      }
    }
  }
}
