/** The valid lists are served first in, first out, whoever pushes and pops. */
module ListOrder {
  import opened Proto
  import opened Machine
  import opened Facts
  import opened Runs
  import opened Scheduling

  /** What one action takes off the front of list k. */
  ghost function TakenBy(s: State, a: Action, k: Protocol): seq<nat>
    requires WellFormed(s) && Enabled(s, a) && k != ProtoNull
  {
    if a.Step? && ThreadEffect(s, s.threads[a.t], a.o).op == PopValid(k) && |s.valids.Get(k)| > 0
    then [s.valids.Get(k)[0]] else []
  }

  /** What one action adds at its back: a proxy just counted valid, or one a dialer puts back. */
  ghost function AddedBy(s: State, a: Action, k: Protocol): seq<nat>
    requires WellFormed(s) && Enabled(s, a) && k != ProtoNull
  {
    if a.Step? then AddedByOp(ThreadEffect(s, s.threads[a.t], a.o).op, k) else []
  }

  function AddedByOp(op: Op, k: Protocol): seq<nat> {
    if (op.PushValid? || op.Requeue?) && op.proto == k then [op.sock] else []
  }

  ghost function Taken(s: State, acts: seq<Action>, k: Protocol): seq<nat>
    requires WellFormed(s) && Legal(s, acts) && k != ProtoNull
    decreases |acts|
  {
    if acts == [] then []
    else (NextKeepsWellFormed(s, acts[0]); TakenBy(s, acts[0], k) + Taken(Next(s, acts[0]), acts[1..], k))
  }

  ghost function Added(s: State, acts: seq<Action>, k: Protocol): seq<nat>
    requires WellFormed(s) && Legal(s, acts) && k != ProtoNull
    decreases |acts|
  {
    if acts == [] then []
    else (NextKeepsWellFormed(s, acts[0]); AddedBy(s, acts[0], k) + Added(Next(s, acts[0]), acts[1..], k))
  }

  lemma OneActionServesFront(s: State, a: Action, k: Protocol)
    requires WellFormed(s) && Enabled(s, a) && k != ProtoNull
    ensures s.valids.Get(k) + AddedBy(s, a, k) == TakenBy(s, a, k) + Next(s, a).valids.Get(k)
  {
    if a.Step? {
      EffectPcOk(s, a.t, a.o);
      var op, list := ThreadEffect(s, s.threads[a.t], a.o).op, s.valids.Get(k);
      ListAfter(s, op, k);
      if op == PopValid(k) {
        assert list == [list[0]] + list[1..];
      }
    }
  }

  /** Over any run each valid list is a first-in first-out queue: what was on it
      followed by what was added is what was taken followed by what is on it. */
  lemma {:induction false} ListIsFifo(s: State, acts: seq<Action>, k: Protocol)
    requires WellFormed(s) && Legal(s, acts) && k != ProtoNull
    ensures s.valids.Get(k) + Added(s, acts, k) == Taken(s, acts, k) + Exec(s, acts).valids.Get(k)
    decreases |acts|
  {
    if acts != [] {
      var s1 := Next(s, acts[0]);
      NextKeepsWellFormed(s, acts[0]);
      OneActionServesFront(s, acts[0], k);
      ListIsFifo(s1, acts[1..], k);
      Splice(s.valids.Get(k), AddedBy(s, acts[0], k), Added(s1, acts[1..], k),
             TakenBy(s, acts[0], k), s1.valids.Get(k), Taken(s1, acts[1..], k), Exec(s1, acts[1..]).valids.Get(k));
    }
  }

  /** The proxy at index i of a valid list is the (i+1)-th that getters take off it, whatever is pushed meanwhile. */
  lemma ProxyServedInTurn(s: State, acts: seq<Action>, k: Protocol, i: nat)
    requires WellFormed(s) && Legal(s, acts) && k != ProtoNull && i < |s.valids.Get(k)|
    ensures InTurn(s.valids.Get(k), Taken(s, acts, k), Exec(s, acts).valids.Get(k), i)
  {
    ListIsFifo(s, acts, k);
    FifoKeepsTurns(s.valids.Get(k), Added(s, acts, k), Taken(s, acts, k), Exec(s, acts).valids.Get(k), i);
  }
}
