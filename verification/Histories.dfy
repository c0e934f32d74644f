/** A run with all the states it goes through, to say what happened when. */
module Histories {
  import opened Machine
  import opened Invariant
  import opened Runs

  /** One more state than actions: action i leads from state i to state i+1. */
  datatype History = History(states: seq<State>, acts: seq<Action>) {
    predicate Shaped() {
      |states| == |acts| + 1
    }

    function Last(): State
      requires Shaped()
    {
      states[|acts|]
    }

    function Front(): History
      requires Shaped() && acts != []
    {
      History(states[..|acts|], acts[..|acts| - 1])
    }
  }

  ghost predicate Follows(s: State, a: Action, s': State) {
    WellFormed(s) && Enabled(s, a) && s' == Next(s, a)
  }

  ghost predicate StepAt(h: History, i: nat)
    requires h.Shaped() && i < |h.acts|
  {
    Follows(h.states[i], h.acts[i], h.states[i + 1])
  }

  /** What may happen to an engine that satisfies the joint invariant. */
  ghost predicate Genuine(h: History) {
    h.Shaped() && Inv(h.states[0]) && forall i :: 0 <= i < |h.acts| ==> StepAt(h, i)
  }

  /** The history of the engine created at the given time, over the given run. */
  ghost predicate IsHistory(h: History, birth: nat, run: seq<Action>) {
    Genuine(h) && h.states[0] == Initial(birth) && h.acts == run
  }

  lemma FrontIsGenuine(h: History)
    requires Genuine(h) && h.acts != []
    ensures Genuine(h.Front()) && h.Front().Last() == h.states[|h.acts| - 1]
    ensures StepAt(h, |h.acts| - 1)
  {
    forall i | 0 <= i < |h.Front().acts| ensures StepAt(h.Front(), i) {
      assert StepAt(h, i);
    }
  }

  lemma FollowsKeepsInv(s: State, a: Action, s': State)
    requires Inv(s) && Follows(s, a, s')
    ensures Inv(s')
  {
    NextKeepsInv(s, a);
  }

  lemma {:induction false} InvAt(h: History, i: nat)
    requires Genuine(h) && i <= |h.acts|
    ensures Inv(h.states[i])
  {
    if i > 0 {
      InvAt(h, i - 1);
      FollowsKeepsInv(h.states[i - 1], h.acts[i - 1], h.states[i]) by {
        assert StepAt(h, i - 1);
      }
    }
  }

  /** The states of a history are what its actions lead to. */
  lemma {:induction false} StateIsExec(h: History, i: nat)
    requires Genuine(h) && i <= |h.acts|
    ensures Legal(h.states[0], h.acts[..i]) && Exec(h.states[0], h.acts[..i]) == h.states[i]
  {
    if i == 0 {
      assert h.acts[..0] == [];
    } else {
      StateIsExec(h, i - 1);
      assert StepAt(h, i - 1);
      OneStep(h.states[i - 1], h.acts[i - 1]);
      RunsCompose(h.states[0], h.acts[..i - 1], [h.acts[i - 1]]);
      assert h.acts[..i] == h.acts[..i - 1] + [h.acts[i - 1]];
    }
  }

  /** Every legal run has its history. */
  lemma {:induction false} HistoryOf(s: State, acts: seq<Action>) returns (h: History)
    requires Inv(s) && Legal(s, acts)
    ensures Genuine(h) && h.states[0] == s && h.acts == acts && h.Last() == Exec(s, acts)
    decreases |acts|
  {
    if acts == [] {
      h := History([s], []);
    } else {
      NextKeepsInv(s, acts[0]);
      var rest := HistoryOf(Next(s, acts[0]), acts[1..]);
      h := History([s] + rest.states, acts);
      forall i | 0 <= i < |acts| ensures StepAt(h, i) {
        if i > 0 {
          assert StepAt(rest, i - 1);
        }
      }
    }
  }

  /** An engine's past state, read off its history. */
  lemma PastState(h: History, birth: nat, run: seq<Action>, ran: seq<Action>, was: State)
    requires IsHistory(h, birth, run) && ran <= run && Reached(birth, ran, was)
    ensures h.states[|ran|] == was
  {
    assert Tag(0);
    StateIsExec(h, |ran|);
    assert run[..|ran|] == ran;
  }

  // ---------------------------------------------------------------- one thread in a history

  lemma NextKeepsOthers(s: State, a: Action, t: nat)
    requires WellFormed(s) && Enabled(s, a) && t < |s.threads|
    ensures |s.threads| <= |Next(s, a).threads|
    ensures !(a.Step? && a.t == t) ==> Next(s, a).threads[t] == s.threads[t]
  {
  }

  /** Thread t exists from state k on. */
  lemma {:induction false} ThreadStays(h: History, t: nat, k: nat, i: nat)
    requires Genuine(h) && k <= i <= |h.acts| && t < |h.states[k].threads|
    ensures t < |h.states[i].threads|
    decreases i
  {
    if k < i {
      ThreadStays(h, t, k, i - 1);
      assert StepAt(h, i - 1);
      NextKeepsOthers(h.states[i - 1], h.acts[i - 1], t);
    }
  }

  predicate IsStepOf(h: History, i: nat, t: nat) {
    i < |h.acts| && h.acts[i].Step? && h.acts[i].t == t
  }

  /** Up to state i thread t stands where it stood at first. */
  predicate Waits(h: History, t: nat, i: nat)
    requires h.Shaped() && i <= |h.acts|
  {
    t < |h.states[0].threads| &&
    forall j :: 0 <= j <= i ==> t < |h.states[j].threads| && h.states[j].threads[t] == h.states[0].threads[t]
  }

  /** The first step of thread t, if it makes one: till then it stands where it stood. */
  lemma FirstStep(h: History, t: nat) returns (i: nat)
    requires Genuine(h) && t < |h.states[0].threads|
    ensures i <= |h.acts| && Waits(h, t, i)
    ensures i < |h.acts| ==> IsStepOf(h, i, t)
    ensures forall j :: 0 <= j < i ==> !IsStepOf(h, j, t)
  {
    i := 0;
    while i < |h.acts| && !IsStepOf(h, i, t)
      invariant i <= |h.acts| && Waits(h, t, i)
      invariant forall j :: 0 <= j < i ==> !IsStepOf(h, j, t)
    {
      assert StepAt(h, i);
      NextKeepsOthers(h.states[i], h.acts[i], t);
      i := i + 1;
    }
  }

  /** What happens from state i on. */
  function Rest(h: History, i: nat): (r: History)
    requires h.Shaped() && i <= |h.acts|
    ensures r.Shaped() && r.Last() == h.Last()
  {
    History(h.states[i..], h.acts[i..])
  }

  lemma RestIsGenuine(h: History, i: nat)
    requires Genuine(h) && i <= |h.acts|
    ensures Genuine(Rest(h, i))
  {
    InvAt(h, i);
    forall j | 0 <= j < |h.acts| - i ensures StepAt(Rest(h, i), j) {
      assert StepAt(h, i + j);
    }
  }
}
