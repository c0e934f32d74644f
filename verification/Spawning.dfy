/** jobSpawner() of daemons.go and conductor.go, under the same interference as the rest. */
module Spawning {
  import opened Proto
  import opened Machine
  import opened Meters
  import opened Facts
  import opened Lifecycle
  import opened Scheduling
  import opened Shutdown
  import opened Engine
  import opened Daemons

  // ---------------------------------------------------------------- the spawner's loop

  /** A step of the spawner that selects nothing, and then the others. */
  method Turn(p5: ProxyEngine, t: nat, o: Oracle, pc: PC)
    requires p5.Valid() && p5.Due(t, o, Read, pc)
    modifies p5
    ensures p5.Valid() && p5.birth == old(p5.birth) && t < |p5.threads| && p5.threads[t] == pc
    ensures Took(old(p5.Abs()), old(p5.run), p5.run, p5.Abs(), t, [])
    ensures AloneBecame(p5, old(p5.Abs()))
    ensures old(p5.schedule) == [] ==> p5.threads == old(p5.threads)[t := pc]
  {
    ghost var was, ran := p5.Abs(), p5.run;
    Proceed(p5, t, o, Read, pc);
    p5.RunSince(was, ran);
    TookOne(was, ran, o, p5.run, p5.Abs(), t);
  }

  /** Front, MoveToBack and the read of the element, under the list's mutex. */
  method RotatePending(p5: ProxyEngine, t: nat) returns (sock: nat)
    requires p5.Valid() && t < |p5.threads| && p5.threads[t] == Spawner(JRotate) && p5.opt.recycle
    modifies p5
    ensures p5.Valid() && p5.birth == old(p5.birth) && t < |p5.threads|
    ensures p5.threads[t] == Spawner(JSubmit(Some(sock)))
    ensures |old(p5.pending)| > 0 && sock == old(p5.pending)[0]
    ensures Took(old(p5.Abs()), old(p5.run), p5.run, p5.Abs(), t, [Picked(sock)])
    ensures AloneBecame(p5, old(p5.Abs()).(pending := old(p5.pending)[1..] + [sock]))
    ensures old(p5.schedule) == [] ==> p5.threads == old(p5.threads)[t := Spawner(JSubmit(Some(sock)))]
  {
    ghost var was, ran := p5.Abs(), p5.run;
    p5.ValidIsReachable();
    KnownProxiesAreQueued(was, "", t);
    p5.CounterInRange(t);
    sock := p5.pending[0];
    Proceed(p5, t, Says(true), Rotate, Spawner(JSubmit(Some(sock))));
    p5.RunSince(was, ran);
    TookOne(was, ran, Says(true), p5.run, p5.Abs(), t);
  }

  /** pool.Submit(): the pool accepts the job, which becomes a validator, or returns an error. */
  method Submit(p5: ProxyEngine, t: nat, pick: Option<nat>, accepted: bool)
    requires p5.Valid() && t < |p5.threads| && p5.threads[t] == Spawner(JSubmit(pick))
    modifies p5
    ensures p5.Valid() && p5.birth == old(p5.birth) && t < |p5.threads| && p5.threads[t] == Spawner(JCheck)
    ensures Took(old(p5.Abs()), old(p5.run), p5.run, p5.Abs(), t, Begins(pick, accepted))
    ensures AloneBecame(p5, old(p5.Abs()))
    ensures old(p5.schedule) == [] ==>
              p5.threads == old(p5.threads)[t := Spawner(JCheck)]
                            + (if pick.Some? && accepted then Job(old(p5.proxies), pick.value) else [])
  {
    if pick.Some? && accepted {
      Accept(p5, t, pick.value);
    } else {
      Decline(p5, t, pick, accepted);
    }
  }

  method Accept(p5: ProxyEngine, t: nat, sock: nat)
    requires p5.Valid() && t < |p5.threads| && p5.threads[t] == Spawner(JSubmit(Some(sock)))
    modifies p5
    ensures p5.Valid() && p5.birth == old(p5.birth) && t < |p5.threads| && p5.threads[t] == Spawner(JCheck)
    ensures Took(old(p5.Abs()), old(p5.run), p5.run, p5.Abs(), t, [Began(sock)])
    ensures AloneBecame(p5, old(p5.Abs()))
    ensures old(p5.schedule) == [] ==>
              p5.threads == old(p5.threads)[t := Spawner(JCheck)] + Job(old(p5.proxies), sock)
  {
    ghost var was, ran := p5.Abs(), p5.run;
    p5.CounterInRange(t);
    p5.Spawn(t, Says(true), Spawner(JCheck), Validator(sock, p5.proxies[sock], Cas));
    p5.YieldAll(t);
    assert p5.run[|ran| + 1..] == p5.run[|ran + [Step(t, Says(true))]|..];
    p5.RunSince(was, ran);
    TookOne(was, ran, Says(true), p5.run, p5.Abs(), t);
  }

  method Decline(p5: ProxyEngine, t: nat, pick: Option<nat>, accepted: bool)
    requires p5.Valid() && t < |p5.threads| && p5.threads[t] == Spawner(JSubmit(pick))
    requires pick == None || !accepted
    modifies p5
    ensures p5.Valid() && p5.birth == old(p5.birth) && t < |p5.threads| && p5.threads[t] == Spawner(JCheck)
    ensures Took(old(p5.Abs()), old(p5.run), p5.run, p5.Abs(), t, [])
    ensures AloneBecame(p5, old(p5.Abs()))
    ensures old(p5.schedule) == [] ==> p5.threads == old(p5.threads)[t := Spawner(JCheck)]
  {
    p5.CounterInRange(t);
    Turn(p5, t, Says(accepted), Spawner(JCheck));
  }

  /** What a submission starts. */
  function Begins(pick: Option<nat>, accepted: bool): seq<Doing> {
    if pick.Some? && accepted then [Began(pick.value)] else []
  }

  /** The validator of record p, not yet begun. */
  function Job(rs: seq<Proxy>, p: nat): seq<PC> {
    if p < |rs| then [Validator(p, rs[p], Cas)] else []
  }

  /** How a round of the spawner ended: it stopped, found Pending empty, found
      recycling off and submitted nothing, or selected a record. */
  datatype Round = Halted | Waited | Idled | Chose(sock: nat) {
    /** What the spawner has done in the round: the selection, and the validation if the pool took the job. */
    function Doings(accepted: bool): seq<Doing> {
      if Chose? then [Picked(sock)] + Begins(Some(sock), accepted) else []
    }
  }

  /** From the locked selection to the submission. */
  method SelectAndSubmit(p5: ProxyEngine, t: nat, accepted: bool) returns (round: Round)
    requires p5.Valid() && t < |p5.threads| && p5.threads[t] == Spawner(JRotate)
    modifies p5
    ensures p5.Valid() && p5.birth == old(p5.birth) && t < |p5.threads| && p5.threads[t] == Spawner(JCheck)
    ensures round == if old(p5.opt.recycle) && |old(p5.pending)| > 0 then Chose(old(p5.pending)[0]) else Idled
    ensures Took(old(p5.Abs()), old(p5.run), p5.run, p5.Abs(), t, round.Doings(accepted))
    ensures AloneBecame(p5, Turned(old(p5.Abs()), round))
    ensures old(p5.schedule) == [] ==>
              p5.threads == old(p5.threads)[t := Spawner(JCheck)]
                            + (if round.Chose? && accepted then Job(old(p5.proxies), round.sock) else [])
  {
    p5.CounterInRange(t);
    if p5.opt.recycle {
      round := RotateAndSubmit(p5, t, accepted);
    } else {
      NothingToSubmit(p5, t, accepted);
      round := Idled;
    }
  }

  method RotateAndSubmit(p5: ProxyEngine, t: nat, accepted: bool) returns (round: Round)
    requires p5.Valid() && t < |p5.threads| && p5.threads[t] == Spawner(JRotate) && p5.opt.recycle
    modifies p5
    ensures p5.Valid() && p5.birth == old(p5.birth) && t < |p5.threads| && p5.threads[t] == Spawner(JCheck)
    ensures |old(p5.pending)| > 0 && round == Chose(old(p5.pending)[0])
    ensures Took(old(p5.Abs()), old(p5.run), p5.run, p5.Abs(), t, round.Doings(accepted))
    ensures AloneBecame(p5, Turned(old(p5.Abs()), round))
    ensures old(p5.schedule) == [] ==>
              p5.threads == old(p5.threads)[t := Spawner(JCheck)]
                            + (if accepted then Job(old(p5.proxies), round.sock) else [])
  {
    ghost var was, ran := p5.Abs(), p5.run;
    var sock := RotatePending(p5, t);
    round := Chose(sock);
    ghost var mid, ranMid := p5.Abs(), p5.run;
    Submit(p5, t, Some(sock), accepted);
    TookMore(was, ran, mid, ranMid, p5.Abs(), p5.run, t, [Picked(sock)], Begins(Some(sock), accepted));
  }

  /** With recycling off a nil job is submitted, which does nothing. */
  method NothingToSubmit(p5: ProxyEngine, t: nat, accepted: bool)
    requires p5.Valid() && t < |p5.threads| && p5.threads[t] == Spawner(JRotate) && !p5.opt.recycle
    modifies p5
    ensures p5.Valid() && p5.birth == old(p5.birth) && t < |p5.threads| && p5.threads[t] == Spawner(JCheck)
    ensures Took(old(p5.Abs()), old(p5.run), p5.run, p5.Abs(), t, [])
    ensures AloneBecame(p5, old(p5.Abs()))
    ensures old(p5.schedule) == [] ==> p5.threads == old(p5.threads)[t := Spawner(JCheck)]
  {
    ghost var was, ran := p5.Abs(), p5.run;
    p5.CounterInRange(t);
    Turn(p5, t, Says(true), Spawner(JSubmit(None)));
    ghost var mid, ranMid := p5.Abs(), p5.run;
    Submit(p5, t, None, accepted);
    TookMore(was, ran, mid, ranMid, p5.Abs(), p5.run, t, [], []);
  }

  /** The engine after a round with nobody else about, but for its threads. */
  function Turned(s: State, round: Round): State {
    if round.Chose? && |s.pending| > 0 then s.(pending := s.pending[1..] + [round.sock]) else s
  }

  /** One round of the loop. By itself, with the engine running, recycling on
      and something pending, it validates the front of Pending and moves it to the back. */
  method SpawnRound(p5: ProxyEngine, t: nat, accepted: bool) returns (round: Round)
    requires p5.Valid() && t < |p5.threads| && p5.threads[t] == Spawner(JCheck)
    modifies p5
    ensures p5.Valid() && p5.birth == old(p5.birth) && t < |p5.threads|
    ensures p5.threads[t] == if round == Halted then Finished(Nothing) else Spawner(JCheck)
    ensures round == Halted <==> old(p5.status) != Running
    ensures round == Waited <==> old(p5.status) == Running && old(p5.pending) == []
    ensures Took(old(p5.Abs()), old(p5.run), p5.run, p5.Abs(), t, round.Doings(accepted))
    ensures AloneBecame(p5, Turned(old(p5.Abs()), round))
    ensures old(p5.schedule) == [] && old(p5.status) == Running && |old(p5.pending)| > 0 ==>
              round == if old(p5.opt.recycle) then Chose(old(p5.pending)[0]) else Idled
    ensures old(p5.schedule) == [] && round.Chose? && accepted ==>
              p5.threads == old(p5.threads)[t := Spawner(JCheck)] + Job(old(p5.proxies), round.sock)
  {
    p5.CounterInRange(t);
    if p5.status != Running {
      Turn(p5, t, Says(true), Finished(Nothing));
      return Halted;
    }
    if |p5.pending| < 1 {
      Turn(p5, t, Says(true), Spawner(JCheck));
      return Waited;
    }
    round := BusyRound(p5, t, accepted);
  }

  /** A round that found the engine running and something pending. */
  method BusyRound(p5: ProxyEngine, t: nat, accepted: bool) returns (round: Round)
    requires p5.Valid() && t < |p5.threads| && p5.threads[t] == Spawner(JCheck)
    requires p5.status == Running && |p5.pending| > 0
    modifies p5
    ensures p5.Valid() && p5.birth == old(p5.birth) && t < |p5.threads| && p5.threads[t] == Spawner(JCheck)
    ensures round.Chose? || round == Idled
    ensures Took(old(p5.Abs()), old(p5.run), p5.run, p5.Abs(), t, round.Doings(accepted))
    ensures AloneBecame(p5, Turned(old(p5.Abs()), round))
    ensures old(p5.schedule) == [] ==>
              && round == (if old(p5.opt.recycle) then Chose(old(p5.pending)[0]) else Idled)
              && p5.threads == old(p5.threads)[t := Spawner(JCheck)]
                               + (if round.Chose? && accepted then Job(old(p5.proxies), round.sock) else [])
  {
    ghost var was, ran := p5.Abs(), p5.run;
    p5.CounterInRange(t);
    Turn(p5, t, Says(true), Spawner(JRotate));
    ghost var mid, ranMid := p5.Abs(), p5.run;
    round := SelectAndSubmit(p5, t, accepted);
    TookMore(was, ran, mid, ranMid, p5.Abs(), p5.run, t, [], round.Doings(accepted));
    assert [] + round.Doings(accepted) == round.Doings(accepted);
  }

  /** jobSpawner(), for as many rounds as there are answers of the pool. Without
      a second spawner beside it, the entry at index i of Pending is the
      (i+1)-th record it selects, whatever is loaded or recycled meanwhile; and if
      the pool takes every job, it starts the validation of each record it selects, in order. */
  method JobSpawner(p5: ProxyEngine, t: nat, accepted: seq<bool>)
    returns (picks: seq<nat>, stopped: bool, ghost doings: seq<Doing>)
    requires p5.Valid() && t < |p5.threads| && p5.threads[t] == Spawner(JCheck)
    modifies p5
    ensures p5.Valid() && p5.birth == old(p5.birth) && t < |p5.threads|
    ensures p5.threads[t] == if stopped then Finished(Nothing) else Spawner(JCheck)
    ensures Took(old(p5.Abs()), old(p5.run), p5.run, p5.Abs(), t, doings) && Chosen(doings) == picks
    ensures (forall i :: 0 <= i < |accepted| ==> accepted[i]) ==> doings == EachBegun(picks)
    ensures SoleSince(old(p5.Abs()), old(p5.run), p5.run, t) ==>
              forall i :: 0 <= i < |old(p5.pending)| ==> InTurn(old(p5.pending), picks, p5.pending, i)
    ensures old(p5.schedule) == [] && old(p5.status) == Running && old(p5.opt.recycle) && |old(p5.pending)| > 0 ==>
              |picks| == |accepted| && !stopped
  {
    ghost var was, ran := p5.Abs(), p5.run;
    picks, stopped, doings := [], false, [];
    p5.ValidIsWellFormed();
    TookNothing(was, ran, t);
    var i := 0;
    while i < |accepted| && !stopped
      invariant 0 <= i <= |accepted|
      invariant p5.Valid() && p5.birth == old(p5.birth) && t < |p5.threads|
      invariant p5.threads[t] == if stopped then Finished(Nothing) else Spawner(JCheck)
      invariant Took(was, ran, p5.run, p5.Abs(), t, doings) && Chosen(doings) == picks
      invariant (forall j :: 0 <= j < |accepted| ==> accepted[j]) ==> doings == EachBegun(picks)
      invariant old(p5.schedule) == [] && was.status == Running && was.opt.recycle && |was.pending| > 0 ==>
                  && p5.schedule == [] && p5.status == Running && p5.opt.recycle && |p5.pending| > 0
                  && |picks| == i && !stopped
    {
      ghost var mid, ranMid := p5.Abs(), p5.run;
      var round := SpawnRound(p5, t, accepted[i]);
      TookMore(was, ran, mid, ranMid, p5.Abs(), p5.run, t, doings, round.Doings(accepted[i]));
      OneRoundMore(doings, picks, round, accepted[i]);
      doings := doings + round.Doings(accepted[i]);
      if round.Chose? {
        picks := picks + [round.sock];
      }
      stopped := round == Halted;
      i := i + 1;
    }
    if SoleSince(was, ran, p5.run, t) {
      forall j | 0 <= j < |was.pending| ensures InTurn(was.pending, picks, p5.pending, j) {
        SoleSpawnerInTurn(was, ran, p5.run, p5.Abs(), t, doings, j);
      }
    }
  }

  lemma OneRoundMore(ds: seq<Doing>, picks: seq<nat>, round: Round, accepted: bool)
    requires Chosen(ds) == picks
    ensures var more := if round.Chose? then [round.sock] else [];
            && Chosen(ds + round.Doings(accepted)) == picks + more
            && (accepted && ds == EachBegun(picks) ==> ds + round.Doings(accepted) == EachBegun(picks + more))
  {
    ChosenConcat(ds, round.Doings(accepted));
    if round.Chose? {
      assert (picks + [round.sock])[..|picks|] == picks;
      ChosenOfRound(round.sock, accepted);
    } else {
      assert ds + round.Doings(accepted) == ds && picks + [] == picks;
    }
  }

  lemma ChosenOfRound(p: nat, accepted: bool)
    ensures Chosen(Chose(p).Doings(accepted)) == [p]
  {
    assert [Picked(p)][..0] == [];
    ChosenConcat([Picked(p)], Begins(Some(p), accepted));
    assert [Began(p)][..0] == [];
    assert [p] + [] == [p];
  }

  lemma TookNothing(s: State, ran: seq<Action>, t: nat)
    requires WellFormed(s)
    ensures Took(s, ran, ran, s, t, [])
  {
    assert ran[|ran|..] == [];
  }

  // ---------------------------------------------------------------- the conductor

  /** A conductor's step starts a spawner. */
  predicate StartsSpawner(d: Deed, t: nat) {
    && t < |d.before.threads|
    && d.after == d.before.(threads := d.before.threads[t := Conductor(CStore)] + [Spawner(JCheck)])
  }

  /** A conductor's step stores the status and changes nothing else but its own counter. */
  predicate Stores(d: Deed, t: nat, status: Status) {
    t < |d.before.threads|
    && d.after == d.before.(status := status, threads := d.before.threads[t := Finished(Nothing)])
  }

  /** Start and Resume: an engine that is running is left alone; else a step of
      the call starts a spawner, and a later one stores that the engine is running. */
  method Start(p5: ProxyEngine) returns (ok: bool, ghost started: Deed, ghost stored: Deed)
    requires p5.Valid()
    modifies p5
    ensures p5.Valid() && p5.birth == old(p5.birth) && old(p5.run) < p5.run
    ensures ok == (old(p5.status) != Running)
    ensures ok ==>
              var t := |old(p5.threads)|;
              && p5.Did(started, t, |old(p5.run)|) && StartsSpawner(started, t)
              && p5.Did(stored, t, |old(p5.run)|) && Stores(stored, t, Running) && started.n < stored.n
    ensures AloneBecame(p5, old(p5.Abs()).(status := Running))
    ensures old(p5.schedule) == [] ==>
              p5.threads == old(p5.threads) + [Finished(Nothing)] + (if ok then [Spawner(JCheck)] else [])
  {
    ghost var ran := p5.run;
    started, stored := Deed(0, p5.Abs(), p5.Abs()), Deed(0, p5.Abs(), p5.Abs());
    var t := p5.Begin(Conductor(CLoad));
    if p5.status == Running {
      p5.CounterInRange(t);
      Proceed(p5, t, Says(true), Read, Finished(Nothing));
      return false, started, stored;
    }
    ghost var run1 := p5.run;
    started, stored := StartIdle(p5, t);
    DidSince(p5.birth, p5.run, started, t, |ran|, |run1|);
    DidSince(p5.birth, p5.run, stored, t, |ran|, |run1|);
    return true, started, stored;
  }

  /** An engine that was seen not to be running is started. */
  method StartIdle(p5: ProxyEngine, t: nat) returns (ghost started: Deed, ghost stored: Deed)
    requires p5.Valid() && t < |p5.threads| && p5.threads[t] == Conductor(CLoad) && p5.status != Running
    modifies p5
    ensures p5.Valid() && p5.birth == old(p5.birth) && old(p5.run) < p5.run
    ensures p5.Did(started, t, |old(p5.run)|) && StartsSpawner(started, t)
    ensures p5.Did(stored, t, |old(p5.run)|) && Stores(stored, t, Running) && started.n < stored.n
    ensures AloneBecame(p5, old(p5.Abs()).(status := Running))
    ensures old(p5.schedule) == [] ==> p5.threads == old(p5.threads)[t := Finished(Nothing)] + [Spawner(JCheck)]
  {
    ghost var ran := p5.run;
    p5.CounterInRange(t);
    Proceed(p5, t, Says(true), Read, Conductor(CSpawn));
    ghost var run1 := p5.run;
    started, stored := StartDaemons(p5, t);
    DidSince(p5.birth, p5.run, started, t, |ran|, |run1|);
    DidSince(p5.birth, p5.run, stored, t, |ran|, |run1|);
  }

  /** startDaemons(): the spawner first, the status after. */
  method StartDaemons(p5: ProxyEngine, t: nat) returns (ghost started: Deed, ghost stored: Deed)
    requires p5.Valid() && t < |p5.threads| && p5.threads[t] == Conductor(CSpawn)
    modifies p5
    ensures p5.Valid() && p5.birth == old(p5.birth) && old(p5.run) < p5.run
    ensures p5.Did(started, t, |old(p5.run)|) && StartsSpawner(started, t)
    ensures p5.Did(stored, t, |old(p5.run)|) && Stores(stored, t, Running) && started.n < stored.n
    ensures AloneBecame(p5, old(p5.Abs()).(status := Running))
    ensures old(p5.schedule) == [] ==> p5.threads == old(p5.threads)[t := Finished(Nothing)] + [Spawner(JCheck)]
  {
    ghost var ran := p5.run;
    started := StartSpawner(p5, t);
    ghost var run1 := p5.run;
    stored := Store(p5, t, Running);
    DidStays(p5.birth, run1, p5.run, started, t, |ran|);
    DidSince(p5.birth, p5.run, stored, t, |ran|, |run1|);
  }

  /** The go statement. */
  method StartSpawner(p5: ProxyEngine, t: nat) returns (ghost started: Deed)
    requires p5.Valid() && t < |p5.threads| && p5.threads[t] == Conductor(CSpawn)
    modifies p5
    ensures p5.Valid() && p5.birth == old(p5.birth) && old(p5.run) < p5.run
    ensures t < |p5.threads| && p5.threads[t] == Conductor(CStore)
    ensures p5.Did(started, t, |old(p5.run)|) && started.n == |old(p5.run)| && StartsSpawner(started, t)
    ensures AloneBecame(p5, old(p5.Abs()))
    ensures old(p5.schedule) == [] ==> p5.threads == old(p5.threads)[t := Conductor(CStore)] + [Spawner(JCheck)]
  {
    ghost var s0, ran := p5.Abs(), p5.run;
    p5.CounterInRange(t);
    p5.Spawn(t, Says(true), Conductor(CStore), Spawner(JCheck));
    ghost var run1 := p5.run;
    started := Deed(|ran|, s0, p5.Abs());
    p5.YieldAll(t);
    NewDeed(p5.birth, ran, run1, p5.run, started, t, Says(true));
  }

  /** The atomic store of the status. */
  method Store(p5: ProxyEngine, t: nat, status: Status) returns (ghost stored: Deed)
    requires p5.Valid() && t < |p5.threads|
    requires p5.threads[t] == if status == Running then Conductor(CStore) else Conductor(PStore)
    requires status == Running || status == Paused
    modifies p5
    ensures p5.Valid() && p5.birth == old(p5.birth) && old(p5.run) < p5.run && Later(old(p5.Abs()), p5.Abs())
    ensures p5.Did(stored, t, |old(p5.run)|) && stored.n == |old(p5.run)| && Stores(stored, t, status)
    ensures AloneBecame(p5, old(p5.Abs()).(status := status))
    ensures old(p5.schedule) == [] ==> p5.threads == old(p5.threads)[t := Finished(Nothing)]
  {
    p5.CounterInRange(t);
    stored := ProceedDeed(p5, t, Says(true), SetStatus(status), Finished(Nothing));
  }

  /** The load and the store of Pause. */
  method PauseFrom(p5: ProxyEngine, t: nat) returns (ok: bool, ghost stored: Deed)
    requires p5.Valid() && t < |p5.threads| && p5.threads[t] == Conductor(PLoad)
    modifies p5
    ensures p5.Valid() && p5.birth == old(p5.birth) && old(p5.run) < p5.run
    ensures ok == (old(p5.status) == Running)
    ensures ok ==> p5.Did(stored, t, |old(p5.run)|) && Stores(stored, t, Paused)
    ensures Later(old(p5.Abs()), p5.Abs())
    ensures AloneBecame(p5, old(p5.Abs()).(status := if ok then Paused else old(p5.status)))
  {
    ghost var s0, ran := p5.Abs(), p5.run;
    stored := Deed(0, s0, s0);
    p5.CounterInRange(t);
    if p5.status != Running {
      Proceed(p5, t, Says(true), Read, Finished(Nothing));
      return false, stored;
    }
    Proceed(p5, t, Says(true), Read, Conductor(PStore));
    ghost var s1, run1 := p5.Abs(), p5.run;
    stored := Store(p5, t, Paused);
    DidSince(p5.birth, p5.run, stored, t, |ran|, |run1|);
    LaterTransitive(s0, s1, p5.Abs());
    return true, stored;
  }

  /** Pause: an engine that is not running is left alone; else a step of the call stores that it is paused. */
  method Pause(p5: ProxyEngine) returns (ok: bool, ghost stored: Deed)
    requires p5.Valid()
    modifies p5
    ensures p5.Valid() && p5.birth == old(p5.birth) && old(p5.run) < p5.run
    ensures ok == (old(p5.status) == Running)
    ensures ok ==> p5.Did(stored, |old(p5.threads)|, |old(p5.run)|) && Stores(stored, |old(p5.threads)|, Paused)
    ensures AloneBecame(p5, old(p5.Abs()).(status := if ok then Paused else old(p5.status)))
  {
    ghost var ran := p5.run;
    var t := p5.Begin(Conductor(PLoad));
    ghost var run1 := p5.run;
    ok, stored := PauseFrom(p5, t);
    if ok {
      DidSince(p5.birth, p5.run, stored, t, |ran|, |run1|);
    }
  }

  /** Close: the context is done from then on, and what is counted valid from
      then on, also in the time of a later Resume, is at most what was in flight:
      no more than one validation for each record that was locked. */
  method Close(p5: ProxyEngine) returns (ok: bool)
    requires p5.Valid()
    modifies p5
    ensures p5.Valid() && p5.birth == old(p5.birth) && old(p5.run) < p5.run && p5.closed
    ensures TotalValidated(p5.Abs()) <= old(TotalValidated(p5.Abs())) + old(Sum(InFlight, p5.threads))
    ensures old(Sum(InFlight, p5.threads)) <= old(Total(Locks, p5.proxies))
    ensures AloneBecame(p5, old(p5.Abs()).(closed := true, status := if ok then Paused else old(p5.status)))
    ensures old(p5.schedule) == [] ==> ok == (old(p5.status) == Running)
  {
    ghost var ts := p5.threads;
    var t := p5.Begin(Conductor(CQuit));
    p5.CounterInRange(t);
    p5.Take(t, Says(true), Quit, Conductor(PLoad));
    ConductorCountsNothing(ts, t, p5.threads);
    ok := PauseAfterClose(p5, t);
  }

  /** What is left of Close once the context is done. */
  method PauseAfterClose(p5: ProxyEngine, t: nat) returns (ok: bool)
    requires p5.Valid() && t < |p5.threads| && p5.threads[t] == Conductor(PLoad) && p5.closed
    modifies p5
    ensures p5.Valid() && p5.birth == old(p5.birth) && old(p5.run) < p5.run && p5.closed
    ensures TotalValidated(p5.Abs()) <= old(TotalValidated(p5.Abs())) + old(Sum(InFlight, p5.threads))
    ensures old(Sum(InFlight, p5.threads)) <= old(Total(Locks, p5.proxies))
    ensures AloneBecame(p5, old(p5.Abs()).(status := if ok then Paused else old(p5.status)))
    ensures old(p5.schedule) == [] ==> ok == (old(p5.status) == Running)
  {
    ghost var at, ran := p5.Abs(), p5.run;
    p5.ValidIsReachable();
    p5.YieldAll(t);
    ghost var stored;
    ok, stored := PauseFrom(p5, t);
    p5.RunSince(at, ran);
    CloseBoundsValidations(at, p5.run[|ran|..]);
  }

  lemma ConductorCountsNothing(ts: seq<PC>, t: nat, ts': seq<PC>)
    requires t == |ts| && ts' == (ts + [Conductor(CQuit)])[t := Conductor(PLoad)]
    ensures Sum(InFlight, ts') == Sum(InFlight, ts)
  {
    assert ts' == ts + [Conductor(PLoad)];
    SumAppend(InFlight, ts, Conductor(PLoad));
  }
}
