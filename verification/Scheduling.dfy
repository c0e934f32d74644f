/** The spawner's rotation of Pending: round robin with bounded waiting. */
module Scheduling {
  import opened Machine
  import opened Runs

  ghost predicate Rotates(s: State, a: Action)
    requires WellFormed(s) && Enabled(s, a)
  {
    a.Step? && ThreadEffect(s, s.threads[a.t], a.o).op.Rotate?
  }

  /** What one action selects from the front of Pending. */
  ghost function Selected(s: State, a: Action): seq<nat>
    requires WellFormed(s) && Enabled(s, a)
  {
    if Rotates(s, a) && |s.pending| > 0 then [s.pending[0]] else []
  }

  /** What one action puts at the back of Pending: the rotated record, or a loaded or recycled one. */
  ghost function Appended(s: State, a: Action): seq<nat>
    requires WellFormed(s) && Enabled(s, a)
  {
    if Rotates(s, a) then Selected(s, a)
    else if a.Step? && ThreadEffect(s, s.threads[a.t], a.o).op.AddPending?
    then [ThreadEffect(s, s.threads[a.t], a.o).op.sock]
    else []
  }

  ghost function Picks(s: State, acts: seq<Action>): seq<nat>
    requires WellFormed(s) && Legal(s, acts)
    decreases |acts|
  {
    if acts == [] then []
    else
      (NextKeepsWellFormed(s, acts[0]); Selected(s, acts[0]) + Picks(Next(s, acts[0]), acts[1..]))
  }

  ghost function Arrivals(s: State, acts: seq<Action>): seq<nat>
    requires WellFormed(s) && Legal(s, acts)
    decreases |acts|
  {
    if acts == [] then []
    else
      (NextKeepsWellFormed(s, acts[0]); Appended(s, acts[0]) + Arrivals(Next(s, acts[0]), acts[1..]))
  }

  lemma OneActionIsFifo(s: State, a: Action)
    requires WellFormed(s) && Enabled(s, a)
    ensures s.pending + Appended(s, a) == Selected(s, a) + Next(s, a).pending
  {
    if a.Step? {
      EffectPcOk(s, a.t, a.o);
      var op := ThreadEffect(s, s.threads[a.t], a.o).op;
      OpIsFifo(s, op);
    }
  }

  lemma OpIsFifo(s: State, op: Op)
    requires OpOk(s, op)
    ensures s.pending + (if op.Rotate? then [s.pending[0]] else if op.AddPending? then [op.sock] else [])
         == (if op.Rotate? then [s.pending[0]] else []) + Perform(s, op).pending
  {
    if op.Rotate? {
      assert s.pending == [s.pending[0]] + s.pending[1..];
    }
  }

  /** Over any run Pending is a first-in first-out queue: what was in it followed
      by what arrived is what was selected followed by what is left. */
  lemma {:induction false} PendingIsFifo(s: State, acts: seq<Action>)
    requires WellFormed(s) && Legal(s, acts)
    ensures s.pending + Arrivals(s, acts) == Picks(s, acts) + Exec(s, acts).pending
    decreases |acts|
  {
    if acts != [] {
      var s1 := Next(s, acts[0]);
      NextKeepsWellFormed(s, acts[0]);
      OneActionIsFifo(s, acts[0]);
      PendingIsFifo(s1, acts[1..]);
      Splice(s.pending, Appended(s, acts[0]), Arrivals(s1, acts[1..]),
             Selected(s, acts[0]), s1.pending, Picks(s1, acts[1..]), Exec(s1, acts[1..]).pending);
    }
  }

  /** Two stretches of a queue's history, one after the other. */
  lemma Splice<T>(q0: seq<T>, a0: seq<T>, a1: seq<T>, p0: seq<T>, q1: seq<T>, p1: seq<T>, q2: seq<T>)
    requires q0 + a0 == p0 + q1 && q1 + a1 == p1 + q2
    ensures q0 + (a0 + a1) == (p0 + p1) + q2
  {
    assert q0 + (a0 + a1) == (q0 + a0) + a1;
    assert (p0 + q1) + a1 == p0 + (q1 + a1);
    assert p0 + (p1 + q2) == (p0 + p1) + q2;
  }

  /** Entry i of queue q is the (i+1)-th of what was selected, or waits at the right place in what is left. */
  predicate InTurn(q: seq<nat>, selected: seq<nat>, left: seq<nat>, i: nat) {
    i < |q| &&
    if i < |selected| then selected[i] == q[i]
    else i - |selected| < |left| && left[i - |selected|] == q[i]
  }

  lemma FifoKeepsTurns(q: seq<nat>, arrived: seq<nat>, selected: seq<nat>, left: seq<nat>, i: nat)
    requires q + arrived == selected + left && i < |q|
    ensures InTurn(q, selected, left, i)
  {
    assert (q + arrived)[i] == q[i];
    assert (selected + left)[i] == q[i];
  }

  /** The entry at index i of Pending is the (i+1)-th one selected from now on,
      whatever is loaded, recycled or rotated meanwhile. */
  lemma EntrySelectedInTurn(s: State, acts: seq<Action>, i: nat)
    requires WellFormed(s) && Legal(s, acts) && i < |s.pending|
    ensures InTurn(s.pending, Picks(s, acts), Exec(s, acts).pending, i)
  {
    PendingIsFifo(s, acts);
    FifoKeepsTurns(s.pending, Arrivals(s, acts), Picks(s, acts), Exec(s, acts).pending, i);
  }

  /** An entry just moved to the back of a list of length n is selected again exactly n rotations later. */
  lemma RotatedEntryReturns(s: State, a: Action, acts: seq<Action>)
    requires WellFormed(s) && Enabled(s, a) && Rotates(s, a) && |s.pending| > 0
    requires WellFormed(Next(s, a)) && Legal(Next(s, a), acts)
    requires |Picks(Next(s, a), acts)| >= |s.pending|
    ensures Picks(Next(s, a), acts)[|s.pending| - 1] == s.pending[0]
  {
    var s1 := Next(s, a);
    OneActionIsFifo(s, a);
    FrontIsLast(s.pending, s1.pending);
    EntrySelectedInTurn(s1, acts, |s.pending| - 1);
  }

  lemma FrontIsLast<T>(q: seq<T>, q1: seq<T>)
    requires |q| > 0 && q + [q[0]] == [q[0]] + q1
    ensures |q1| == |q| && q1[|q| - 1] == q[0]
  {
    assert ([q[0]] + q1)[|q|] == q[0];
  }

  // ---------------------------------------------------------------- one spawner among others

  /** What a spawner does to the rest of the engine: it selects a record from
      the front of Pending, and starts the validation of one. */
  datatype Doing = Picked(sock: nat) | Began(sock: nat)

  /** The records selected, in order. */
  function Chosen(ds: seq<Doing>): seq<nat> {
    if ds == [] then []
    else Chosen(ds[..|ds| - 1]) + (if ds[|ds| - 1].Picked? then [ds[|ds| - 1].sock] else [])
  }

  /** Each of the records selected, and its validation started. */
  function EachBegun(picks: seq<nat>): seq<Doing> {
    if picks == [] then []
    else EachBegun(picks[..|picks| - 1]) + [Picked(picks[|picks| - 1]), Began(picks[|picks| - 1])]
  }

  lemma {:induction false} ChosenConcat(a: seq<Doing>, b: seq<Doing>)
    ensures Chosen(a + b) == Chosen(a) + Chosen(b)
    decreases |b|
  {
    if b == [] {
      assert a + b == a;
    } else {
      var n := |b| - 1;
      ChosenConcat(a, b[..n]);
      assert (a + b)[..|a + b| - 1] == a + b[..n];
    }
  }

  /** What a step does, by its effect on Pending and the goroutine it starts. */
  function DoneIn(e: Effect, pending: seq<nat>): seq<Doing> {
    (if e.op.Rotate? && |pending| > 0 then [Picked(pending[0])] else [])
    + (if e.born.Some? && e.born.value.Validator? then [Began(e.born.value.sock)] else [])
  }

  ghost function DoneBy(s: State, a: Action, t: nat): seq<Doing>
    requires WellFormed(s) && Enabled(s, a)
  {
    if a.Step? && a.t == t then DoneIn(ThreadEffect(s, s.threads[a.t], a.o), s.pending) else []
  }

  /** What thread t alone does. */
  ghost function DoingsBy(s: State, acts: seq<Action>, t: nat): seq<Doing>
    requires WellFormed(s) && Legal(s, acts)
    decreases |acts|
  {
    if acts == [] then []
    else
      (NextKeepsWellFormed(s, acts[0]);
       DoneBy(s, acts[0], t) + DoingsBy(Next(s, acts[0]), acts[1..], t))
  }

  /** No other thread rotates Pending. */
  ghost predicate SoleSpawner(s: State, acts: seq<Action>, t: nat)
    requires WellFormed(s) && Legal(s, acts)
    decreases |acts|
  {
    acts == [] ||
    (&& (Rotates(s, acts[0]) ==> acts[0].t == t)
     && (NextKeepsWellFormed(s, acts[0]); SoleSpawner(Next(s, acts[0]), acts[1..], t)))
  }

  lemma ChosenOfOne(s: State, a: Action, t: nat)
    requires WellFormed(s) && Enabled(s, a) && (Rotates(s, a) ==> a.t == t)
    ensures Chosen(DoneBy(s, a, t)) == Selected(s, a)
  {
    if a.Step? {
      ChosenOfEffect(ThreadEffect(s, s.threads[a.t], a.o), s.pending);
    }
  }

  lemma ChosenOfEffect(e: Effect, pending: seq<nat>)
    ensures Chosen(DoneIn(e, pending)) == if e.op.Rotate? && |pending| > 0 then [pending[0]] else []
  {
    var picked := if e.op.Rotate? && |pending| > 0 then [Picked(pending[0])] else [];
    var began := if e.born.Some? && e.born.value.Validator? then [Began(e.born.value.sock)] else [];
    ChosenConcat(picked, began);
    if picked != [] {
      ChosenAlone(picked[0]);
    }
    if began != [] {
      ChosenAlone(began[0]);
    }
  }

  lemma ChosenAlone(d: Doing)
    ensures Chosen([d]) == if d.Picked? then [d.sock] else []
  {
    assert [d][..0] == [];
  }

  /** Without a second spawner, what the one selects is what is selected. */
  lemma {:induction false} SolePicks(s: State, acts: seq<Action>, t: nat)
    requires WellFormed(s) && Legal(s, acts) && SoleSpawner(s, acts, t)
    ensures Chosen(DoingsBy(s, acts, t)) == Picks(s, acts)
    decreases |acts|
  {
    if acts != [] {
      NextKeepsWellFormed(s, acts[0]);
      SolePicks(Next(s, acts[0]), acts[1..], t);
      ChosenOfOne(s, acts[0], t);
      ChosenConcat(DoneBy(s, acts[0], t), DoingsBy(Next(s, acts[0]), acts[1..], t));
    }
  }

  lemma {:induction false} OthersDoNothing(s: State, acts: seq<Action>, t: nat)
    requires WellFormed(s) && Legal(s, acts) && Others(acts, t)
    ensures DoingsBy(s, acts, t) == []
    decreases |acts|
  {
    if acts != [] {
      NextKeepsWellFormed(s, acts[0]);
      OthersDoNothing(Next(s, acts[0]), acts[1..], t);
    }
  }

  lemma DoingsFirst(s: State, a: Action, rest: seq<Action>, t: nat)
    requires WellFormed(s) && Enabled(s, a)
    requires WellFormed(Next(s, a)) && Legal(Next(s, a), rest)
    ensures Legal(s, [a] + rest)
    ensures DoingsBy(s, [a] + rest, t) == DoneBy(s, a, t) + DoingsBy(Next(s, a), rest, t)
  {
    assert ([a] + rest)[1..] == rest;
  }

  lemma {:induction false} DoingsCompose(s: State, first: seq<Action>, rest: seq<Action>, t: nat)
    requires WellFormed(s) && Legal(s, first)
    requires WellFormed(Exec(s, first)) && Legal(Exec(s, first), rest)
    ensures Legal(s, first + rest)
    ensures DoingsBy(s, first + rest, t) == DoingsBy(s, first, t) + DoingsBy(Exec(s, first), rest, t)
    decreases |first|
  {
    if first == [] {
      assert first + rest == rest;
    } else {
      var a, more := first[0], first[1..];
      assert (first + rest)[0] == a && (first + rest)[1..] == more + rest;
      NextKeepsWellFormed(s, a);
      var s1 := Next(s, a);
      DoingsCompose(s1, more, rest, t);
      Append(DoneBy(s, a, t), DoingsBy(s1, more, t), DoingsBy(Exec(s1, more), rest, t));
    }
  }

  lemma Append(a: seq<Doing>, b: seq<Doing>, c: seq<Doing>)
    ensures a + (b + c) == (a + b) + c
  {
  }

  /** From state `was`, reached by run `ran`, the longer run leads to `now`, thread t having done these. */
  ghost predicate Took(was: State, ran: seq<Action>, run: seq<Action>, now: State, t: nat, ds: seq<Doing>) {
    ran <= run &&
    forall k: nat {:trigger Tag(k)} :: Tag(k) ==> TookThese(was, ran, run, now, t, ds)
  }

  ghost predicate TookThese(was: State, ran: seq<Action>, run: seq<Action>, now: State, t: nat, ds: seq<Doing>)
    requires ran <= run
  {
    && WellFormed(was) && Legal(was, run[|ran|..])
    && Exec(was, run[|ran|..]) == now
    && DoingsBy(was, run[|ran|..], t) == ds
  }

  lemma TookMore(was: State, ran: seq<Action>, mid: State, ranMid: seq<Action>, now: State, run: seq<Action>,
                 t: nat, a: seq<Doing>, b: seq<Doing>)
    requires Took(was, ran, ranMid, mid, t, a) && Took(mid, ranMid, run, now, t, b)
    ensures Took(was, ran, run, now, t, a + b)
  {
    assert Tag(0);
    assert run[|ran|..] == ranMid[|ran|..] + run[|ranMid|..];
    RunsCompose(was, ranMid[|ran|..], run[|ranMid|..]);
    DoingsCompose(was, ranMid[|ran|..], run[|ranMid|..], t);
  }

  /** One step of t, then steps of others only. */
  lemma TookOne(was: State, ran: seq<Action>, o: Oracle, run: seq<Action>, now: State, t: nat)
    requires ran + [Step(t, o)] <= run && Others(run[|ran| + 1..], t)
    requires WellFormed(was) && Legal(was, run[|ran|..]) && Exec(was, run[|ran|..]) == now
    ensures Enabled(was, Step(t, o)) && Took(was, ran, run, now, t, DoneBy(was, Step(t, o), t))
  {
    var rest := run[|ran| + 1..];
    assert run[|ran|..] == [Step(t, o)] + rest;
    StepLast(was, Step(t, o), rest);
    DoingsFirst(was, Step(t, o), rest, t);
    OthersDoNothing(Next(was, Step(t, o)), rest, t);
  }

  /** In what the run adds, no thread but t rotates Pending. */
  ghost predicate SoleSince(was: State, ran: seq<Action>, run: seq<Action>, t: nat) {
    ran <= run && WellFormed(was) && Legal(was, run[|ran|..]) && SoleSpawner(was, run[|ran|..], t)
  }

  /** A sole spawner picks the entries of Pending in turn. */
  lemma SoleSpawnerInTurn(was: State, ran: seq<Action>, run: seq<Action>, now: State, t: nat, ds: seq<Doing>, i: nat)
    requires Took(was, ran, run, now, t, ds) && SoleSince(was, ran, run, t) && i < |was.pending|
    ensures InTurn(was.pending, Chosen(ds), now.pending, i)
  {
    assert Tag(0);
    SolePicks(was, run[|ran|..], t);
    EntrySelectedInTurn(was, run[|ran|..], i);
  }
}
