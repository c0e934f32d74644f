/** Runs of the step system, and what the joint invariant means over all of them. */
module Runs {
  import opened Proto
  import opened Machine
  import opened Meters
  import opened Ownership
  import opened Facts
  import opened Invariant

  ghost predicate Legal(s: State, acts: seq<Action>)
    requires WellFormed(s)
    decreases |acts|
  {
    acts == [] || (Enabled(s, acts[0]) && (NextKeepsWellFormed(s, acts[0]); Legal(Next(s, acts[0]), acts[1..])))
  }

  ghost function Exec(s: State, acts: seq<Action>): State
    requires WellFormed(s) && Legal(s, acts)
    decreases |acts|
  {
    if acts == [] then s else (NextKeepsWellFormed(s, acts[0]); Exec(Next(s, acts[0]), acts[1..]))
  }

  ghost predicate Reachable(s: State) {
    exists now: nat, acts :: WellFormed(Initial(now)) && Legal(Initial(now), acts) && s == Exec(Initial(now), acts)
  }

  /** A tag without content: what is stated for all tags is only looked into where a tag is mentioned. */
  predicate Tag(k: nat) {
    true
  }

  /** The run leads from an engine created at the given time to state s. Said
      under a tag, so that a long proof does not unroll the run at every step. */
  ghost predicate Reached(birth: nat, run: seq<Action>, s: State) {
    forall k: nat {:trigger Tag(k)} :: Tag(k) ==>
      WellFormed(Initial(birth)) && Legal(Initial(birth), run) && s == Exec(Initial(birth), run)
  }

  lemma {:induction false} RunKeepsInv(s: State, acts: seq<Action>)
    requires Inv(s) && Legal(s, acts)
    ensures Inv(Exec(s, acts))
    decreases |acts|
  {
    if acts != [] {
      NextKeepsInv(s, acts[0]);
      RunKeepsInv(Next(s, acts[0]), acts[1..]);
    }
  }

  lemma ReachableInv(s: State)
    requires Reachable(s)
    ensures Inv(s)
  {
    var now: nat, acts :| WellFormed(Initial(now)) && Legal(Initial(now), acts) && s == Exec(Initial(now), acts);
    InitialInv(now);
    RunKeepsInv(Initial(now), acts);
  }

  lemma OneStep(s: State, a: Action)
    requires WellFormed(s) && Enabled(s, a)
    ensures Legal(s, [a]) && Exec(s, [a]) == Next(s, a)
  {
    NextKeepsWellFormed(s, a);
    assert [a][1..] == [];
  }

  lemma StepFirst(s: State, a: Action, rest: seq<Action>)
    requires WellFormed(s) && Enabled(s, a)
    requires WellFormed(Next(s, a)) && Legal(Next(s, a), rest)
    ensures Legal(s, [a] + rest) && Exec(s, [a] + rest) == Exec(Next(s, a), rest)
  {
    assert ([a] + rest)[1..] == rest;
  }

  lemma {:induction false} RunsCompose(s: State, first: seq<Action>, rest: seq<Action>)
    requires WellFormed(s) && Legal(s, first)
    requires WellFormed(Exec(s, first)) && Legal(Exec(s, first), rest)
    ensures Legal(s, first + rest) && Exec(s, first + rest) == Exec(Exec(s, first), rest)
    decreases |first|
  {
    if first == [] {
      assert first + rest == rest;
    } else {
      var a, more := first[0], first[1..];
      assert (first + rest)[0] == a && (first + rest)[1..] == more + rest;
      NextKeepsWellFormed(s, a);
      RunsCompose(Next(s, a), more, rest);
    }
  }

  lemma {:induction false} RunSplits(s: State, first: seq<Action>, rest: seq<Action>)
    requires WellFormed(s) && Legal(s, first + rest)
    ensures Legal(s, first) && WellFormed(Exec(s, first)) && Legal(Exec(s, first), rest)
    ensures Exec(s, first + rest) == Exec(Exec(s, first), rest)
    decreases |first|
  {
    if first == [] {
      assert first + rest == rest;
    } else {
      assert first + rest == [first[0]] + (first[1..] + rest);
      StepLast(s, first[0], first[1..] + rest);
      RunSplits(Next(s, first[0]), first[1..], rest);
      StepFirst(s, first[0], first[1..]);
      assert first == [first[0]] + first[1..];
    }
  }

  lemma StepLast(s: State, a: Action, rest: seq<Action>)
    requires WellFormed(s) && Legal(s, [a] + rest)
    ensures Enabled(s, a) && WellFormed(Next(s, a)) && Legal(Next(s, a), rest)
    ensures Exec(s, [a] + rest) == Exec(Next(s, a), rest)
  {
    assert ([a] + rest)[0] == a && ([a] + rest)[1..] == rest;
    NextKeepsWellFormed(s, a);
  }

  /** Nobody here is thread t. */
  predicate Others(acts: seq<Action>, t: nat) {
    forall i :: 0 <= i < |acts| && acts[i].Step? ==> acts[i].t != t
  }

  lemma OthersMore(run: seq<Action>, run': seq<Action>, n: nat, t: nat)
    requires n <= |run| && run <= run' && Others(run[n..], t) && Others(run'[|run|..], t)
    ensures Others(run'[n..], t)
  {
    forall i | 0 <= i < |run'[n..]| && run'[n..][i].Step? ensures run'[n..][i].t != t {
      if n + i < |run| {
        assert run'[n..][i] == run[n..][i];
      } else {
        assert run'[n..][i] == run'[|run|..][n + i - |run|];
      }
    }
  }

  // ---------------------------------------------------------------- locks

  /** A record is locked iff some thread is in its critical section, and then only one is. */
  lemma LockIsOwned(s: State, p: nat)
    requires Reachable(s) && p < |s.proxies|
    ensures s.proxies[p].locked <==> exists t :: 0 <= t < |s.threads| && Held(s.threads[t]) == Some(p)
    ensures forall t, u | 0 <= t < |s.threads| && 0 <= u < |s.threads| ::
              Held(s.threads[t]) == Some(p) && Held(s.threads[u]) == Some(p) ==> t == u
  {
    ReachableInv(s);
    if s.proxies[p].locked {
      var t := LockedIsHeld(s, p);
    }
    forall t | 0 <= t < |s.threads| && Held(s.threads[t]) == Some(p) ensures s.proxies[p].locked {
      HeldIsLocked(s, t, p);
    }
    forall t, u | 0 <= t < |s.threads| && 0 <= u < |s.threads|
      && Held(s.threads[t]) == Some(p) && Held(s.threads[u]) == Some(p) ensures t == u
    {
      MutualExclusion(s, t, u, p);
    }
  }

  /** Steps left inside the critical section at most. */
  function Rank(pc: PC): nat {
    match pc
    case Validator(_, _, v) =>
      (match v
       case Cas => 0
       case Gate => 21
       case Limits => 20
       case Try(todo, _) => 7 + 4 * |todo|
       case Probe(_, todo, first, _) => if first then 10 + 4 * |todo| else 8
       case Count(_, todo, first, _, _) => if first then 9 + 4 * |todo| else 7
       case Fix(_, todo, _) => 8 + 4 * |todo|
       case Judge(_) => 6
       case MarkGood(_, _) => 5
       case Stamp(_) => 4
       case Tally(_) => 3
       case Push(_) => 2
       case MarkBad(_) => 2
       case Release(_) => 1)
    case StillGood(_, _, _, q) =>
      (match q
       case SgCas => 0
       case SgCount => 5
       case SgLimit => 4
       case SgPeek(_) => 3
       case SgDelete => 2
       case SgStale(_) => 2
       case SgDrop => 1
       case SgKeep(_, _, _) => 1)
    case Dialer(_, _, _, d) => if d.DHold? then 2 else if d.DRelease? then 1 else 0
    case _ => 0
  }

  /** Each step of a holder leaves the critical section or comes nearer to leaving it, and a holder is never stuck. */
  lemma HolderMovesOn(s: State, t: nat, o: Oracle)
    requires Inv(s) && t < |s.threads| && Held(s.threads[t]).Some?
    ensures 1 <= Rank(s.threads[t]) <= 21
    ensures exists o' :: Enabled(s, Step(t, o'))
    ensures PcOk(s.threads[t], |s.proxies|)
    ensures Enabled(s, Step(t, o)) ==>
              var pc' := ThreadEffect(s, s.threads[t], o).pc;
              Held(pc') == None || (Held(pc') == Held(s.threads[t]) && Rank(pc') < Rank(s.threads[t]))
  {
    var pc := s.threads[t];
    assert PcOk(pc, |s.proxies|) && Knows(s, pc);
    if Enabled(s, Step(t, o)) {
      RankDrops(s, pc, o);
    }
    assert Enabled(s, Step(t, SomeOracle(s, t)));
    if pc.Validator? {
      RankBounded(s, pc);
    }
  }

  /** An answer any holder can go on with. */
  ghost function SomeOracle(s: State, t: nat): (o: Oracle)
    requires t < |s.threads| && Held(s.threads[t]).Some?
    ensures Enabled(s, Step(t, o))
  {
    var pc := s.threads[t];
    var proto := if pc.Validator? && pc.v.Try? && pc.v.todo != {} then (var k :| k in pc.v.todo; k) else ProtoNull;
    Oracle(true, false, "", proto, [], [])
  }

  lemma RankDrops(s: State, pc: PC, o: Oracle)
    requires PcOk(pc, |s.proxies|) && Held(pc).Some? && OracleOk(s, pc, o)
    ensures var pc' := ThreadEffect(s, pc, o).pc;
            Held(pc') == None || (Held(pc') == Held(pc) && Rank(pc') < Rank(pc))
  {
    if pc.Validator? {
      ValidatorRankDrops(s, pc, o);
    }
  }

  lemma ValidatorRankDrops(s: State, pc: PC, o: Oracle)
    requires PcOk(pc, |s.proxies|) && pc.Validator? && !pc.v.Cas? && OracleOk(s, pc, o)
    ensures var pc' := ThreadEffect(s, pc, o).pc;
            Held(pc') == None || (Held(pc') == Held(pc) && Rank(pc') < Rank(pc))
  {
    if pc.v.Limits? {
      assert |TRIED| == 3;
    }
    if pc.v.Try? && pc.v.todo != {} {
      assert |pc.v.todo - {o.proto}| == |pc.v.todo| - 1;
    }
  }

  lemma RankBounded(s: State, pc: PC)
    requires Knows(s, pc) && pc.Validator?
    ensures Rank(pc) <= 21
  {
  }

  lemma {:induction false} OthersLeaveRecordAlone(s: State, acts: seq<Action>, t: nat, p: nat)
    requires Inv(s) && Legal(s, acts) && t < |s.threads| && Held(s.threads[t]) == Some(p)
    requires Others(acts, t)
    ensures var s' := Exec(s, acts);
            && p < |s.proxies| <= |s'.proxies| && t < |s'.threads|
            && s'.proxies[p] == s.proxies[p] && s'.threads[t] == s.threads[t]
    decreases |acts|
  {
    HeldIsLocked(s, t, p);
    if acts != [] {
      var s1 := Next(s, acts[0]);
      NextKeepsInv(s, acts[0]);
      OtherLeavesRecordAlone(s, acts[0], t, p);
      OthersLeaveRecordAlone(s1, acts[1..], t, p);
    }
  }

  lemma OtherLeavesRecordAlone(s: State, a: Action, t: nat, p: nat)
    requires Inv(s) && Enabled(s, a) && t < |s.threads| && Held(s.threads[t]) == Some(p)
    requires a.Step? ==> a.t != t
    ensures var s' := Next(s, a);
            && p < |s.proxies| <= |s'.proxies| && t < |s'.threads|
            && s'.proxies[p] == s.proxies[p] && s'.threads[t] == s.threads[t]
  {
    HeldIsLocked(s, t, p);
    if a.Step? {
      EffectUnderLock(s, a.t, a.o);
      OtherEffectLeavesAlone(s, a.t, ThreadEffect(s, s.threads[a.t], a.o), t, p);
    }
  }

  lemma OtherEffectLeavesAlone(s: State, u: nat, e: Effect, t: nat, p: nat)
    requires Owned(s) && t < |s.threads| && u < |s.threads| && u != t
    requires p < |s.proxies| && s.proxies[p].locked && Held(s.threads[t]) == Some(p)
    requires OpOk(s, e.op) && UnderLock(s, s.threads[u], e)
    ensures var s' := Apply(s, u, e);
            && |s.proxies| <= |s'.proxies| && t < |s'.threads|
            && s'.proxies[p] == s.proxies[p] && s'.threads[t] == s.threads[t]
  {
    if e.op.Write? && e.op.sock == p {
      MutualExclusion(s, t, u, p);
    }
  }

  /** Nobody in a critical section: nothing is locked. */
  lemma QuietMeansUnlocked(s: State)
    requires Reachable(s)
    requires forall t :: 0 <= t < |s.threads| ==> s.threads[t].Finished?
    ensures forall p :: 0 <= p < |s.proxies| ==> !s.proxies[p].locked
  {
    forall p | 0 <= p < |s.proxies| ensures !s.proxies[p].locked {
      LockIsOwned(s, p);
    }
  }
}
