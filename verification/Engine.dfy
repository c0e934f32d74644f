/** The engine's methods as the source writes them, each statement one atomic
    step, with every other goroutine free to run between any two of them. What
    a method ensures therefore holds under all interference; and whatever a
    method does is a run of the step system, so all its theorems apply. */
module Engine {
  import opened Proto
  import opened Machine
  import opened Meters
  import opened Ownership
  import opened Facts
  import opened Invariant
  import opened Runs
  import opened Lifecycle
  import opened Dialing
  import opened Histories
  import opened Policy

  // ---------------------------------------------------------------- what validate() does to a record

  /** The answers of the network to one call: the proxied address if a check over that protocol succeeds. */
  type Network = Protocol -> Option<string>

  /** The record after checks over the given protocols, in that order. */
  function Tried(r: Proxy, order: seq<Protocol>, net: Network): Proxy {
    if order == [] then r
    else
      var k, before := order[|order| - 1], Tried(r, order[..|order| - 1], net);
      match net(k)
      case None => before
      case Some(ip) => before.(proxiedIP := ip, cell := before.cell.Set(k))
  }

  /** The record after the checks of the branch that is taken. */
  function Probed(e: Proxy, order: seq<Protocol>, net: Network): Proxy {
    var r := e.(locked := true);
    if Fresh(e) then Tried(r, order, net)
    else
      match net(e.Protocol())
      case None => r
      case Some(ip) => r.(proxiedIP := ip)
  }

  predicate Passes(e: Proxy, order: seq<Protocol>, net: Network) {
    if Fresh(e) then Probed(e, order, net).Protocol() != ProtoNull else net(e.Protocol()).Some?
  }

  /** The record as a whole call leaves it, stamped at the given time if it passed. */
  function Concluded(e: Proxy, order: seq<Protocol>, net: Network, stamp: int): Proxy {
    var r := Probed(e, order, net);
    if Passes(e, order, net) then r.(timesValidated := r.timesValidated + 1, lastValidated := stamp)
    else r.(timesBad := r.timesBad + 1)
  }

  predicate Walk(order: seq<Protocol>) {
    |order| == 3 && (set k | k in order) == TRIED
  }

  /** No protocol before index i passes. */
  predicate FailsBefore(order: seq<Protocol>, net: Network, i: nat) {
    forall j :: 0 <= j < i && j < |order| ==> net(order[j]) == None
  }

  /** All protocols are tried; the first success fixes the protocol, but the address kept is the last success's. */
  lemma {:induction false} FirstSuccessFixesProtocol(r: Proxy, order: seq<Protocol>, net: Network,
                                                     first: nat, last: nat)
    requires !r.cell.fired && first <= last < |order| && FailsBefore(order, net, first)
    requires net(order[first]).Some? && net(order[last]).Some?
    requires forall j :: last < j < |order| ==> net(order[j]) == None
    ensures Tried(r, order, net).cell == Cell(order[first], true)
    ensures Tried(r, order, net).proxiedIP == net(order[last]).value
    decreases |order|
  {
    var n := |order| - 1;
    var front := order[..n];
    if last < n {
      FirstSuccessFixesProtocol(r, front, net, first, last);
    } else if first < n {
      var l := LastSuccess(front, net, first);
      FirstSuccessFixesProtocol(r, front, net, first, l);
    } else {
      NothingTried(r, front, net);
    }
  }

  /** A record without a protocol comes out with one iff some check succeeds, and then with one that did. */
  lemma {:induction false} TriedWins(r: Proxy, order: seq<Protocol>, net: Network)
    requires r.Protocol() == ProtoNull && !r.cell.fired && ProtoNull !in order
    ensures var r' := Tried(r, order, net);
            && (r'.cell.fired <==> r'.Protocol() != ProtoNull)
            && (r'.Protocol() == ProtoNull <==> forall k :: k in order ==> net(k) == None)
            && (r'.Protocol() != ProtoNull ==> r'.Protocol() in order && net(r'.Protocol()).Some?)
            && (r'.Protocol() == ProtoNull ==> r'.cell == r.cell)
    decreases |order|
  {
    if order != [] {
      var n := |order| - 1;
      TriedWins(r, order[..n], net);
      assert order == order[..n] + [order[n]];
    }
  }

  /** On a walk of all three. */
  lemma WalkWins(r: Proxy, order: seq<Protocol>, net: Network)
    requires r.Protocol() == ProtoNull && !r.cell.fired && Walk(order)
    ensures var r' := Tried(r, order, net);
            && (r'.Protocol() != ProtoNull <==>
                  net(ProtoSOCKS4).Some? || net(ProtoSOCKS4a).Some? || net(ProtoSOCKS5).Some?)
            && (r'.Protocol() != ProtoNull ==> net(r'.Protocol()).Some?)
            && (r'.Protocol() == ProtoNull ==> r'.cell == r.cell)
  {
    assert forall k :: k in order <==> k in TRIED;
    TriedWins(r, order, net);
  }

  lemma {:induction false} LastSuccess(order: seq<Protocol>, net: Network, first: nat) returns (last: nat)
    requires first < |order| && net(order[first]).Some?
    ensures first <= last < |order| && net(order[last]).Some?
    ensures forall j :: last < j < |order| ==> net(order[j]) == None
    decreases |order|
  {
    var n := |order| - 1;
    if net(order[n]).Some? {
      last := n;
    } else {
      last := LastSuccess(order[..n], net, first);
    }
  }

  lemma {:induction false} NothingTried(r: Proxy, order: seq<Protocol>, net: Network)
    requires forall j :: 0 <= j < |order| ==> net(order[j]) == None
    ensures Tried(r, order, net) == r
    decreases |order|
  {
    if order != [] {
      NothingTried(r, order[..|order| - 1], net);
    }
  }

  // ---------------------------------------------------------------- evidence

  /** The engine as it was after n actions of its run. */
  datatype Look = Look(n: nat, at: State)

  /** Action n of the run, with the states around it. */
  datatype Deed = Deed(n: nat, before: State, after: State)

  ghost predicate SeenIn(birth: nat, run: seq<Action>, l: Look, from: nat) {
    from <= l.n <= |run| &&
    forall k: nat {:trigger Tag(k)} :: Tag(k) ==> Reached(birth, run[..l.n], l.at)
  }

  ghost predicate DidIn(birth: nat, run: seq<Action>, d: Deed, t: nat, from: nat) {
    from <= d.n < |run| &&
    forall k: nat {:trigger Tag(k)} :: Tag(k) ==>
      && run[d.n].Step? && run[d.n].t == t
      && Reached(birth, run[..d.n], d.before) && Reached(birth, run[..d.n + 1], d.after)
  }

  /** In s thread t and the record it has locked are as they were. */
  predicate LeftAlone(t: nat, was: State, s: State) {
    && t < |s.threads| && t < |was.threads| && s.threads[t] == was.threads[t]
    && (Held(s.threads[t]).Some? ==>
          var p := Held(s.threads[t]).value;
          p < |s.proxies| && p < |was.proxies| && s.proxies[p] == was.proxies[p])
  }

  ghost predicate GrownFrom(was: State, s: State) {
    Later(was, s) && multiset(was.pending) <= multiset(s.pending)
  }

  /** An action of somebody else. */
  lemma OtherActs(s: State, a: Action, t: nat, was: State)
    requires Inv(s) && Enabled(s, a) && (a.Step? ==> a.t != t) && LeftAlone(t, was, s) && GrownFrom(was, s)
    ensures LeftAlone(t, was, Next(s, a)) && GrownFrom(was, Next(s, a))
  {
    NextIsLater(s, a);
    LaterTransitive(was, s, Next(s, a));
    if Held(s.threads[t]).Some? {
      OtherLeavesRecordAlone(s, a, t, Held(s.threads[t]).value);
    }
    OtherKeepsCounter(s, a, t);
  }

  /** Still in its critical section after a step, a thread finds its record as it left it. */
  lemma LeftAsWritten(s: State, op: Op, t: nat, pc: PC, s': State)
    requires OpOk(s, op) && t < |s.threads|
    requires LeftAlone(t, Machine.Perform(s, op).(threads := s.threads[t := pc]), s')
    ensures Machine.Perform(s, op).now == s.now && (s.closed ==> Machine.Perform(s, op).closed)
    ensures Held(pc).Some? ==>
              var p := Held(pc).value;
              && p < |s'.proxies|
              && s'.proxies[p] == if op.Write? && op.sock == p then op.rec
                                  else if p < |s.proxies| then s.proxies[p] else s'.proxies[p]
  {
    OpKeepsTime(s, op);
    if Held(pc).Some? && Held(pc).value < |s.proxies| {
      KeptRecord(s, op, Held(pc).value);
    }
  }

  predicate OnlyRecord(rs: seq<Proxy>, rs': seq<Proxy>, p: nat) {
    |rs'| == |rs| && forall q :: 0 <= q < |rs| && q != p ==> rs'[q] == rs[q]
  }

  function Listed(v: PerProto<seq<nat>>, k: Protocol, p: nat): PerProto<seq<nat>>
    requires k != ProtoNull
  {
    v.Set(k, v.Get(k) + [p])
  }

  function OneMore(v: PerProto<nat>, k: Protocol): PerProto<nat>
    requires k != ProtoNull
  {
    v.Set(k, v.Get(k) + 1)
  }

  ghost predicate GoodIn(birth: nat, run: seq<Action>, t: nat, p: nat, from: nat) {
    exists h: History, g: nat, c: nat, a: nat ::
      && IsHistory(h, birth, run) && from <= c && Judgement(h, t, p, g, c, a)
      && h.states[a].now - h.states[g].now <= h.states[a].opt.stale
  }

  /** The deed gives back the lock of a record, and changes no other. */
  predicate Unlocks(d: Deed, p: nat) {
    && p < |d.before.proxies| && d.before.proxies[p].locked
    && d.after.proxies == d.before.proxies[p := d.before.proxies[p].(locked := false)]
  }

  /** The past stays as the run goes on. */
  lemma SeenStays(birth: nat, run: seq<Action>, run': seq<Action>, l: Look, from: nat)
    requires SeenIn(birth, run, l, from) && run <= run'
    ensures SeenIn(birth, run', l, from)
  {
    assert Tag(0);
    assert run'[..l.n] == run[..l.n];
  }

  lemma DidStays(birth: nat, run: seq<Action>, run': seq<Action>, d: Deed, t: nat, from: nat)
    requires DidIn(birth, run, d, t, from) && run <= run'
    ensures DidIn(birth, run', d, t, from)
  {
    assert Tag(0);
    assert run'[..d.n] == run[..d.n] && run'[..d.n + 1] == run[..d.n + 1];
  }

  /** The action by which a run has just grown is a deed, however the run goes on. */
  lemma NewDeed(birth: nat, ran: seq<Action>, run1: seq<Action>, run: seq<Action>, d: Deed, t: nat, o: Oracle)
    requires Reached(birth, ran, d.before) && Reached(birth, run1, d.after) && d.n == |ran|
    requires run1 == ran + [Step(t, o)] && run1 <= run
    ensures DidIn(birth, run, d, t, |ran|)
  {
    assert run[..|ran|] == ran && run[..|ran| + 1] == run1;
  }

  lemma DidSince(birth: nat, run: seq<Action>, d: Deed, t: nat, from: nat, later: nat)
    requires DidIn(birth, run, d, t, later) && from <= later
    ensures DidIn(birth, run, d, t, from)
  {
  }

  // ---------------------------------------------------------------- the engine

  class ProxyEngine {
    var proxies: seq<Proxy>
    var plot: map<string, nat>
    var pending: seq<nat>
    var valids: PerProto<seq<nat>>
    var stats: Stats
    var opt: Options
    var status: Status
    var closed: bool
    var now: int
    var recycleMu: bool
    var threads: seq<PC>
    var log: Log

    /** What all others do at each point where the running goroutine may be interrupted. */
    var schedule: seq<seq<Action>>

    ghost var birth: nat
    ghost var run: seq<Action>

    function Abs(): State
      reads this
    {
      State(proxies, plot, pending, valids, stats, opt, status, closed, now, recycleMu, threads, log)
    }

    /** The engine is where its run has taken it from its creation. */
    ghost predicate Valid()
      reads this
    {
      Reached(birth, run, Abs())
    }

    constructor (now: nat, schedule: seq<seq<Action>>)
      ensures Valid() && Abs() == Initial(now) && run == []
      ensures opt.recycle && opt.removeAfter == 25 && opt.stale == 30 * 60 * 1000 && opt.bailout == 20
      ensures proxies == [] && plot == map[] && pending == [] && threads == [] && status == New
      ensures !closed && !recycleMu && this.now == now && stats.checked == stats.dispensed == stats.stale == 0
      ensures forall k: Protocol :: k != ProtoNull ==> valids.Get(k) == [] && stats.valid.Get(k) == 0
    {
      var s := Initial(now);
      proxies, plot, pending, valids := s.proxies, s.plot, s.pending, s.valids;
      stats, opt, status, closed := s.stats, s.opt, s.status, s.closed;
      this.now, recycleMu, threads, log := s.now, s.recycleMu, s.threads, s.log;
      this.schedule := schedule;
      birth, run := now, [];
      new;
      InitialWellFormed(now);
    }

    lemma ValidIsReachable()
      requires Valid()
      ensures Reachable(Abs()) && Inv(Abs()) && WellFormed(Abs())
    {
      assert Tag(0);
      assert Reachable(Abs());
      ReachableInv(Abs());
    }

    lemma ValidIsWellFormed()
      requires Valid()
      ensures WellFormed(Abs())
    {
      ValidIsReachable();
    }

    /** What an earlier state and run of this engine were, seen from now. */
    lemma RunSince(was: State, ran: seq<Action>)
      requires Valid() && ran <= run && Reached(birth, ran, was)
      ensures WellFormed(was) && Legal(was, run[|ran|..]) && Abs() == Exec(was, run[|ran|..])
    {
      assert Tag(0);
      assert run == ran + run[|ran|..];
      RunSplits(Initial(birth), ran, run[|ran|..]);
    }

    /** This is how the engine was at some point of its run since action `from`. */
    ghost predicate Seen(l: Look, from: nat)
      reads this
    {
      SeenIn(birth, run, l, from)
    }

    /** And this is what thread t did at some point since then. */
    ghost predicate Did(d: Deed, t: nat, from: nat)
      reads this
    {
      DidIn(birth, run, d, t, from)
    }

    /** In the engine's history since action `from`, thread t judged p good: its
        failures, its age, its validation. Said under a tag, like Reached. */
    ghost predicate GoodDuring(t: nat, p: nat, from: nat)
      reads this
    {
      forall k: nat {:trigger Tag(k)} :: Tag(k) ==> GoodIn(birth, run, t, p, from)
    }

    /** With nobody else scheduled, nothing that only others can change has changed. */
    twostate predicate AloneKept()
      reads this
    {
      old(schedule) == [] ==>
        schedule == [] && opt == old(opt) && closed == old(closed) && now == old(now) && status == old(status)
    }

    /** With nobody else scheduled, no record but this one has changed, and if
        the verdict on it is good it has been counted and listed under its protocol, once. */
    twostate predicate AloneTallied(sock: nat, verdict: Verdict)
      reads this
    {
      old(schedule) == [] ==>
        && schedule == [] && OnlyRecord(old(proxies), proxies, sock)
        && if verdict == Good
           then sock < |proxies| && proxies[sock].Protocol() != ProtoNull
                && valids == Listed(old(valids), proxies[sock].Protocol(), sock)
                && stats.valid == OneMore(old(stats.valid), proxies[sock].Protocol())
           else valids == old(valids) && stats.valid == old(stats.valid)
    }

    twostate predicate AloneOnly(sock: nat)
      reads this
    {
      AloneTallied(sock, Bad)
    }

    lemma SeenNow(l: Look)
      requires Valid() && l == Look(|run|, Abs())
      ensures Seen(l, |run|)
    {
      assert run[..|run|] == run;
    }

    /** A thread that has a proxy it did not have then has judged it good since. */
    lemma WasJudged(t: nat, p: nat, was: State, ran: seq<Action>)
      requires Valid() && ran <= run && Reached(birth, ran, was) && Unjudged(was, t, p)
      requires t < |threads| && Carried(threads[t]) == Some(p)
      ensures GoodDuring(t, p, |ran|)
    {
      assert Tag(0);
      InitialInv(birth);
      var h := HistoryOf(Initial(birth), run);
      PastState(h, birth, run, ran, was);
      var g, c, a := HandedOutWasJudged(h, birth, t, p, |ran|);
      assert GoodIn(birth, run, t, p, |ran|);
    }

    /** The run goes on by one action that has just been performed. */
    ghost method Extend(s0: State, a: Action)
      requires Reached(birth, run, s0)
      requires WellFormed(s0) && Enabled(s0, a) && Abs() == Next(s0, a)
      modifies this`run
      ensures Valid() && run == old(run) + [a]
    {
      assert Tag(0);
      OneStep(s0, a);
      RunsCompose(Initial(birth), run, [a]);
      run := run + [a];
    }

    method Become(s: State)
      modifies `proxies, `plot, `pending, `valids, `stats, `opt, `status, `closed, `now, `recycleMu, `threads, `log
      ensures Abs() == s
    {
      match s
      case State(rs, m, q, v, st, op, stat, c, n, mu, ts, l) =>
        proxies := rs;
        plot := m;
        pending := q;
        valids := v;
        stats := st;
        opt := op;
        status := stat;
        closed := c;
        now := n;
        recycleMu := mu;
        threads := ts;
        log := l;
    }

    /** Thread t and the record it has locked are as they were. */
    ghost predicate Undisturbed(t: nat, was: State)
      reads this
    {
      LeftAlone(t, was, Abs())
    }

    /** What the others cannot take back. */
    ghost predicate Grown(was: State)
      reads this
    {
      GrownFrom(was, Abs())
    }

    /** Interference: any legal actions of anyone but thread t. */
    method YieldAll(t: nat)
      requires Valid() && t < |threads|
      modifies this
      ensures Valid() && birth == old(birth)
      ensures old(run) <= run && Others(run[|old(run)|..], t)
      ensures Undisturbed(t, old(Abs())) && Grown(old(Abs()))
      ensures old(schedule) == [] ==> schedule == [] && Abs() == old(Abs()) && run == old(run)
    {
      ghost var was := Abs();
      ValidIsReachable();
      if Held(threads[t]).Some? {
        HeldIsLocked(Abs(), t, Held(threads[t]).value);
      }
      EvolvesItself(was);
      if schedule == [] {
        return;
      }
      var batch := schedule[0];
      schedule := schedule[1..];
      for i := 0 to |batch|
        invariant Valid() && birth == old(birth)
        invariant old(run) <= run && Others(run[|old(run)|..], t)
        invariant Undisturbed(t, was) && Grown(was)
      {
        ghost var before := run;
        Interrupt(batch[i], t, was);
        OthersMore(before, run, |old(run)|, t);
      }
    }

    /** One action of somebody else, if it is possible now. */
    method Interrupt(a: Action, t: nat, ghost was: State)
      requires Valid() && Undisturbed(t, was) && Grown(was)
      modifies this
      ensures Valid() && birth == old(birth)
      ensures old(run) <= run && Others(run[|old(run)|..], t)
      ensures Undisturbed(t, was) && Grown(was)
    {
      var s := Abs();
      ValidIsReachable();
      if Enabled(s, a) && !(a.Step? && a.t == t) {
        OtherActs(s, a, t, was);
        Become(Next(s, a));
        Extend(s, a);
      }
    }

    /** One operation on the shared fields. */
    method Perform(op: Op)
      requires OpOk(Abs(), op)
      modifies `proxies, `plot, `pending, `valids, `stats, `status, `closed, `recycleMu, `log
      ensures Abs() == Machine.Perform(old(Abs()), op)
    {
      match op
      case Read =>
      case Write(p, r) => proxies := proxies[p := r];
      case CountCheck => stats := stats.(checked := stats.checked + 1);
      case CountDispensed => stats := stats.(dispensed := stats.dispensed + 1);
      case CountStale => stats := stats.(stale := stats.stale + 1);
      case CountValid(k) => stats := stats.(valid := stats.valid.Set(k, stats.valid.Get(k) + 1));
      case PushValid(k, p) => valids := valids.Set(k, valids.Get(k) + [p]);
      case PopValid(k) =>
        valids := valids.Set(k, valids.Get(k)[1..]);
        log := log.(pops := log.pops.Set(k, log.pops.Get(k) + 1));
      case Requeue(k, p) =>
        valids := valids.Set(k, valids.Get(k) + [p]);
        log := log.(requeues := log.requeues.Set(k, log.requeues.Get(k) + 1));
      case AddPending(p) => pending := pending + [p];
      case Rotate => pending := pending[1..] + [pending[0]];
      case MapInsert(e) =>
        plot := plot[e := |proxies|];
        proxies := proxies + [NewProxy(e)];
      case MapDelete(e) => plot := plot - {e};
      case SetRecycleMu(held) => recycleMu := held;
      case SetStatus(st) => status := st;
      case Quit => closed := true;
    }

    /** And thread t moves on. */
    method Advance(t: nat, op: Op, pc: PC)
      requires OpOk(Abs(), op) && t < |threads|
      modifies `proxies, `plot, `pending, `valids, `stats, `status, `closed, `recycleMu, `log, `threads
      ensures Abs() == Machine.Perform(old(Abs()), op).(threads := old(threads)[t := pc])
    {
      Perform(op);
      threads := threads[t := pc];
    }

    lemma CounterInRange(t: nat)
      requires Valid() && t < |threads|
      ensures PcOk(threads[t], |proxies|)
    {
      ValidIsReachable();
    }

    /** The step of a thread that starts no other: allowed by the step system, its operation and its new counter. */
    predicate Due(t: nat, o: Oracle, op: Op, pc: PC)
      reads this
    {
      && t < |threads| && PcOk(threads[t], |proxies|) && !threads[t].Finished? && OracleOk(Abs(), threads[t], o)
      && ThreadEffect(Abs(), threads[t], o) == Do(op, pc)
    }

    lemma DueNow(t: nat, o: Oracle, op: Op, pc: PC)
      requires Valid() && Due(t, o, op, pc)
      ensures WellFormed(Abs()) && Enabled(Abs(), Step(t, o)) && OpOk(Abs(), op)
      ensures Next(Abs(), Step(t, o)) == Machine.Perform(Abs(), op).(threads := threads[t := pc])
    {
      ValidIsWellFormed();
      DueIsNext(Abs(), t, o, op, pc);
    }

    /** The record of the critical section thread t is in after an operation. */
    predicate Holds(t: nat, p: nat, r: Proxy)
      reads this
    {
      t < |threads| && Held(threads[t]) == Some(p) && p < |proxies| && proxies[p] == r
    }

    /** One atomic step of thread t, performed. */
    method Take(t: nat, o: Oracle, op: Op, pc: PC)
      requires Valid() && Due(t, o, op, pc)
      modifies this
      ensures Valid() && birth == old(birth) && run == old(run) + [Step(t, o)] && schedule == old(schedule)
      ensures OpOk(old(Abs()), op)
      ensures Abs() == Machine.Perform(old(Abs()), op).(threads := old(threads)[t := pc])
    {
      ghost var s0 := Abs();
      DueNow(t, o, op, pc);
      Advance(t, op, pc);
      Extend(s0, Step(t, o));
    }

    /** A step that only starts another goroutine. */
    method Spawn(t: nat, o: Oracle, pc: PC, born: PC)
      requires Valid() && t < |threads| && PcOk(threads[t], |proxies|)
      requires !threads[t].Finished? && OracleOk(Abs(), threads[t], o)
      requires ThreadEffect(Abs(), threads[t], o) == Effect(Read, pc, Some(born))
      modifies this`threads, this`run
      ensures Valid() && run == old(run) + [Step(t, o)]
      ensures threads == old(threads)[t := pc] + [born]
    {
      ghost var s0 := Abs();
      ValidIsWellFormed();
      EffectPcOk(s0, t, o);
      threads := threads[t := pc] + [born];
      Extend(s0, Step(t, o));
    }

    /** One atomic step of thread t, and then whatever the others do. */
    method StrideAll(t: nat, o: Oracle, op: Op, pc: PC) returns (ghost d: Deed)
      requires Valid() && Due(t, o, op, pc)
      modifies this
      ensures Valid() && birth == old(birth) && OpOk(old(Abs()), op)
      ensures old(run) + [Step(t, o)] <= run && Others(run[|old(run)| + 1..], t)
      ensures d == Deed(|old(run)|, old(Abs()), Machine.Perform(old(Abs()), op).(threads := old(threads)[t := pc]))
      ensures Did(d, t, |old(run)|) && Undisturbed(t, d.after) && Grown(d.after)
      ensures old(schedule) == [] ==> schedule == [] && Abs() == d.after
    {
      ghost var ran := run;
      Take(t, o, op, pc);
      d := Deed(|ran|, old(Abs()), Abs());
      ghost var run1 := run;
      YieldAll(t);
      NewDeed(birth, ran, run1, run, d, t, o);
    }

    method Stride(t: nat, o: Oracle, op: Op, pc: PC) returns (ghost d: Deed)
      requires Valid() && Due(t, o, op, pc)
      modifies this
      ensures Valid() && birth == old(birth) && old(run) < run && OpOk(old(Abs()), op)
      ensures d == Deed(|old(run)|, old(Abs()), Machine.Perform(old(Abs()), op).(threads := old(threads)[t := pc]))
      ensures Did(d, t, |old(run)|) && Undisturbed(t, d.after)
      ensures d.after.now <= now && (d.after.closed ==> closed)
      ensures old(schedule) == [] ==> schedule == [] && Abs() == d.after
    {
      d := StrideAll(t, o, op, pc);
    }

    /** Still in its critical section after such a step, thread t finds the record as it left it. */
    method AtomicDeed(t: nat, o: Oracle, op: Op, pc: PC) returns (ghost d: Deed)
      requires Valid() && Due(t, o, op, pc)
      modifies this
      ensures Valid() && birth == old(birth) && old(run) < run && old(now) <= now && (old(closed) ==> closed)
      ensures t < |threads| && threads[t] == pc && PcOk(pc, |proxies|)
      ensures Held(pc).Some? ==>
                var p := Held(pc).value;
                Holds(t, p, if op.Write? && op.sock == p then op.rec
                            else if p < old(|proxies|) then old(proxies)[p] else proxies[p])
      ensures OpOk(old(Abs()), op)
      ensures d == Deed(|old(run)|, old(Abs()), Machine.Perform(old(Abs()), op).(threads := old(threads)[t := pc]))
      ensures Did(d, t, |old(run)|)
      ensures old(schedule) == [] ==> schedule == [] && Abs() == d.after
    {
      d := Stride(t, o, op, pc);
      CounterInRange(t);
      LeftAsWritten(d.before, op, t, pc, Abs());
    }

    /** The same, without the step as evidence. */
    method Atomic(t: nat, o: Oracle, op: Op, pc: PC)
      requires Valid() && Due(t, o, op, pc)
      modifies this
      ensures Valid() && birth == old(birth) && old(run) < run && old(now) <= now && (old(closed) ==> closed)
      ensures t < |threads| && threads[t] == pc && PcOk(pc, |proxies|)
      ensures Held(pc).Some? ==>
                var p := Held(pc).value;
                Holds(t, p, if op.Write? && op.sock == p then op.rec
                            else if p < old(|proxies|) then old(proxies)[p] else proxies[p])
      ensures old(schedule) == [] ==>
                && schedule == [] && OpOk(old(Abs()), op)
                && Abs() == Machine.Perform(old(Abs()), op).(threads := old(threads)[t := pc])
    {
      ghost var d := AtomicDeed(t, o, op, pc);
    }

    /** A user's call of the engine gets a goroutine. */
    method Begin(pc: PC) returns (t: nat)
      requires Valid() && Entry(pc)
      modifies this
      ensures Valid() && birth == old(birth) && run == old(run) + [Call(pc)] && schedule == old(schedule)
      ensures t == old(|threads|) && threads == old(threads) + [pc]
      ensures Abs() == old(Abs()).(threads := threads) && Later(old(Abs()), Abs())
    {
      ghost var s0 := Abs();
      ValidIsWellFormed();
      t := |threads|;
      threads := threads + [pc];
      Extend(s0, Call(pc));
      EvolvesItself(s0);
    }

    // -------------------------------------------------------------- validate()

    /** The compare-and-swap at the top of validate(), and the context check below it. */
    method Admit(t: nat, sock: nat) returns (admitted: bool, entry: Proxy)
      requires Valid() && t < |threads| && threads[t].Validator? && threads[t].sock == sock && threads[t].v == Cas
      modifies this
      ensures Valid() && birth == old(birth) && old(run) < run && old(now) <= now && t < |threads|
      ensures sock < |old(proxies)| && entry == old(proxies)[sock] && admitted == !entry.locked
      ensures if admitted then
                && Holds(t, sock, entry.(locked := true))
                && (threads[t] == Validator(sock, entry, Limits)
                    || (threads[t] == Validator(sock, entry, Release(CutShort)) && closed))
                && (old(closed) ==> threads[t] == Validator(sock, entry, Release(CutShort)))
              else threads[t] == Finished(Validated(Refused))
      ensures old(schedule) == [] && !admitted ==> proxies == old(proxies)
      ensures AloneOnly(sock)
    {
      CounterInRange(t);
      entry := proxies[sock];
      if entry.locked {
        Atomic(t, Says(true), Read, Finished(Validated(Refused)));
        return false, entry;
      }
      Atomic(t, Says(true), Write(sock, entry.(locked := true)), Validator(sock, entry, Gate));
      Atomic(t, Says(true), Read, Validator(sock, entry, if closed then Release(CutShort) else Limits));
      return true, entry;
    }

    /** singleProxyCheck(): a success leaves the proxied address on the record; either way the check is counted. */
    method SingleProxyCheck(t: nat, sock: nat, protocol: Protocol, net: Network,
                            entry: Proxy, todo: set<Protocol>, first: bool, checks: nat)
      returns (ok: bool)
      requires Valid() && t < |threads| && threads[t] == Validator(sock, entry, Probe(protocol, todo, first, checks))
      requires sock < |proxies|
      modifies this
      ensures Valid() && birth == old(birth) && old(run) < run && old(now) <= now && t < |threads|
      ensures ok == net(protocol).Some?
      ensures Holds(t, sock, if ok then old(proxies[sock]).(proxiedIP := net(protocol).value) else old(proxies[sock]))
      ensures threads[t] == Validator(sock, entry,
                if first then (if ok then Fix(protocol, todo, checks + 1) else Try(todo, checks + 1))
                else if ok then Judge(checks + 1) else MarkBad(checks + 1))
      ensures old(closed) ==> closed
      ensures old(schedule) == [] ==> stats == old(stats).(checked := old(stats.checked) + 1)
      ensures AloneOnly(sock)
    {
      CounterInRange(t);
      var answer := net(protocol);
      ok := answer.Some?;
      var r := proxies[sock];
      Atomic(t, Heard(answer), if ok then Write(sock, r.(proxiedIP := answer.value)) else Read,
             Validator(sock, entry, Count(protocol, todo, first, checks, ok)));
      Atomic(t, Says(true), CountCheck,
             Validator(sock, entry,
                       if first then (if ok then Fix(protocol, todo, checks + 1) else Try(todo, checks + 1))
                       else if ok then Judge(checks + 1) else MarkBad(checks + 1)));
    }

    /** One turn of the loop: stop if the engine is closed, else check, and on success fix the protocol. */
    method TryOne(t: nat, sock: nat, entry: Proxy, order: seq<Protocol>, i: nat, net: Network) returns (open: bool)
      requires Valid() && t < |threads| && Walk(order) && i < 3
      requires threads[t] == Validator(sock, entry, Try(Left(order, i), i))
      requires Holds(t, sock, Tried(entry.(locked := true), order[..i], net))
      modifies this
      ensures Valid() && birth == old(birth) && old(run) < run && old(now) <= now && t < |threads|
      ensures open ==> Holds(t, sock, Tried(entry.(locked := true), order[..i + 1], net))
      ensures open ==> threads[t] == Validator(sock, entry, Try(Left(order, i + 1), i + 1))
      ensures open == !old(closed)
      ensures !open ==> threads[t] == Validator(sock, entry, Release(CutShort)) && closed
      ensures !open ==> sock < |proxies| && SameTally(entry, proxies[sock]) && proxies[sock].locked
      ensures AloneOnly(sock)
    {
      TriedKeepsTally(entry.(locked := true), order[..i], net);
      if closed {
        CounterInRange(t);
        WalkLeft(order, i);
        Atomic(t, Choice(order[i]), Read, Validator(sock, entry, Release(CutShort)));
        return false;
      }
      assert order[..i + 1][..i] == order[..i];
      TryProto(t, sock, entry, order, i, net);
      return true;
    }

    /** A success fixes the protocol, unless it is fixed already. */
    method FixProto(t: nat, sock: nat, entry: Proxy, tryProto: Protocol, todo: set<Protocol>, checks: nat)
      requires Valid() && t < |threads| && threads[t] == Validator(sock, entry, Fix(tryProto, todo, checks))
      requires sock < |proxies|
      modifies this
      ensures Valid() && birth == old(birth) && old(run) < run && old(now) <= now && t < |threads|
      ensures Holds(t, sock, old(proxies[sock]).(cell := old(proxies[sock]).cell.Set(tryProto)))
      ensures threads[t] == Validator(sock, entry, Try(todo, checks))
      ensures AloneOnly(sock)
    {
      var r := proxies[sock];
      CounterInRange(t);
      Atomic(t, Says(true), Write(sock, r.(cell := r.cell.Set(tryProto))), Validator(sock, entry, Try(todo, checks)));
    }

    /** The check over the protocol whose turn it is. */
    method TryProto(t: nat, sock: nat, entry: Proxy, order: seq<Protocol>, i: nat, net: Network)
      requires Valid() && t < |threads| && Walk(order) && i < 3 && !closed && sock < |proxies|
      requires threads[t] == Validator(sock, entry, Try(Left(order, i), i))
      modifies this
      ensures Valid() && birth == old(birth) && old(run) < run && old(now) <= now && t < |threads|
      ensures var r := old(proxies[sock]);
              Holds(t, sock, match net(order[i])
                             case None => r
                             case Some(ip) => r.(proxiedIP := ip, cell := r.cell.Set(order[i])))
      ensures threads[t] == Validator(sock, entry, Try(Left(order, i + 1), i + 1))
      ensures AloneOnly(sock)
    {
      var tryProto, todo := order[i], Left(order, i + 1);
      WalkLeft(order, i);
      CounterInRange(t);
      Atomic(t, Choice(tryProto), Read, Validator(sock, entry, Probe(tryProto, todo, true, i)));
      var ok := SingleProxyCheck(t, sock, tryProto, net, entry, todo, true, i);
      if ok {
        FixProto(t, sock, entry, tryProto, todo, i + 1);
      }
    }

    /** The loop over the protocols: every one is tried, unless the engine is closed meanwhile. */
    method TryAll(t: nat, sock: nat, entry: Proxy, order: seq<Protocol>, net: Network) returns (finished: bool)
      requires Valid() && t < |threads| && threads[t] == Validator(sock, entry, Try(TRIED, 0))
      requires Holds(t, sock, entry.(locked := true)) && Walk(order)
      modifies this
      ensures Valid() && birth == old(birth) && old(run) < run && old(now) <= now && t < |threads| && sock < |proxies|
      ensures finished ==> Holds(t, sock, Tried(entry.(locked := true), order, net))
      ensures threads[t] == Validator(sock, entry, if finished then Judge(3) else Release(CutShort))
      ensures !finished ==> closed && SameTally(entry, proxies[sock]) && proxies[sock].locked
      ensures AloneOnly(sock)
    {
      var i := 0;
      assert Tried(entry.(locked := true), order[..0], net) == entry.(locked := true);
      WalkLeft(order, 0);
      while i < |order|
        invariant 0 <= i <= 3
        invariant Valid() && birth == old(birth) && old(run) <= run && old(now) <= now && t < |threads|
        invariant threads[t] == Validator(sock, entry, Try(Left(order, i), i))
        invariant Holds(t, sock, Tried(entry.(locked := true), order[..i], net))
        invariant AloneOnly(sock)
      {
        var open := TryOne(t, sock, entry, order, i, net);
        if !open {
          return false;
        }
        i := i + 1;
      }
      assert order[..3] == order;
      CounterInRange(t);
      Atomic(t, Says(true), Read, Validator(sock, entry, Judge(3)));
      return true;
    }

    /** Past the gate a record has a protocol iff it was ever validated. */
    lemma EntryIsSettled(t: nat)
      requires Valid() && t < |threads| && threads[t].Validator? && threads[t].v.Limits?
      ensures RecOk(threads[t].entry)
      ensures threads[t].entry.Protocol() != ProtoNull <==> threads[t].entry.timesValidated > 0
    {
      ValidIsReachable();
      assert Knows(Abs(), threads[t]);
    }

    /** From the verdict on a record that has been checked to the release of its lock. */
    method Conclude(t: nat, sock: nat, entry: Proxy, checks: nat) returns (verdict: Verdict, left: Proxy)
      requires Valid() && t < |threads| && threads[t] == Validator(sock, entry, Judge(checks))
      requires sock < |proxies|
      modifies this
      ensures Valid() && birth == old(birth) && old(run) < run && old(now) <= now && t < |threads|
      ensures threads[t] == Validator(sock, entry, Release(verdict)) && Holds(t, sock, left)
      ensures var r := old(proxies[sock]);
              if r.Protocol() == ProtoNull then verdict == Bad && left == r.(timesBad := r.timesBad + 1)
              else
                && verdict == Good
                && left == r.(timesValidated := r.timesValidated + 1, lastValidated := left.lastValidated)
      ensures verdict == Good ==> old(now) <= left.lastValidated <= now
      ensures AloneTallied(sock, verdict)
    {
      CounterInRange(t);
      var r := proxies[sock];
      var proto := r.Protocol();
      if proto == ProtoNull {
        Atomic(t, Says(true), Read, Validator(sock, entry, MarkBad(checks)));
        left := MarkSockBad(t, sock, entry, checks);
        return Bad, left;
      }
      Atomic(t, Says(true), Read, Validator(sock, entry, MarkGood(proto, checks)));
      left := MarkSockGood(t, sock, entry, proto, checks);
      ghost var counted, listed := TallyUp(t, sock, entry, proto);
      return Good, left;
    }

    /** bad(). */
    method MarkSockBad(t: nat, sock: nat, entry: Proxy, checks: nat) returns (left: Proxy)
      requires Valid() && t < |threads| && threads[t] == Validator(sock, entry, MarkBad(checks)) && sock < |proxies|
      modifies this
      ensures Valid() && birth == old(birth) && old(run) < run && old(now) <= now && t < |threads|
      ensures threads[t] == Validator(sock, entry, Release(Bad)) && Holds(t, sock, left)
      ensures left == old(proxies[sock]).(timesBad := old(proxies[sock]).timesBad + 1)
      ensures AloneOnly(sock)
    {
      var r := proxies[sock];
      left := r.(timesBad := r.timesBad + 1);
      CounterInRange(t);
      Atomic(t, Says(true), Write(sock, left), Validator(sock, entry, Release(Bad)));
    }

    /** good(): the count first, then the stamp. */
    method MarkSockGood(t: nat, sock: nat, entry: Proxy, proto: Protocol, checks: nat) returns (left: Proxy)
      requires Valid() && t < |threads| && threads[t] == Validator(sock, entry, MarkGood(proto, checks))
      requires sock < |proxies|
      modifies this
      ensures Valid() && birth == old(birth) && old(run) < run && old(now) <= now && t < |threads|
      ensures threads[t] == Validator(sock, entry, Tally(proto)) && Holds(t, sock, left)
      ensures var r := old(proxies[sock]);
              left == r.(timesValidated := r.timesValidated + 1, lastValidated := left.lastValidated)
      ensures old(now) <= left.lastValidated <= now
      ensures AloneOnly(sock)
    {
      var r := proxies[sock];
      var counted := r.(timesValidated := r.timesValidated + 1);
      CounterInRange(t);
      Atomic(t, Says(true), Write(sock, counted), Validator(sock, entry, Stamp(proto)));
      left := counted.(lastValidated := now);
      Atomic(t, Says(true), Write(sock, left), Validator(sock, entry, Tally(proto)));
    }

    /** tally(): the counter of the proxy's protocol, then the list. */
    method TallyUp(t: nat, sock: nat, entry: Proxy, proto: Protocol) returns (ghost counted: Deed, ghost listed: Deed)
      requires Valid() && t < |threads| && threads[t] == Validator(sock, entry, Tally(proto)) && sock < |proxies|
      requires proxies[sock].Protocol() == proto != ProtoNull
      modifies this
      ensures Valid() && birth == old(birth) && old(run) < run && old(now) <= now && t < |threads|
      ensures threads[t] == Validator(sock, entry, Release(Good)) && Holds(t, sock, old(proxies[sock]))
      ensures Did(counted, t, |old(run)|) && counted.after.stats.valid == OneMore(counted.before.stats.valid, proto)
      ensures Did(listed, t, |old(run)|) && listed.after.valids == Listed(listed.before.valids, proto, sock)
      ensures counted.n < listed.n
      ensures AloneTallied(sock, Good)
    {
      CounterInRange(t);
      counted := AtomicDeed(t, Says(true), CountValid(proto), Validator(sock, entry, Push(proto)));
      ghost var run1 := run;
      listed := PutOnList(t, sock, entry, proto);
      DidStays(birth, run1, run, counted, t, |old(run)|);
    }

    /** The second half of tally(). */
    method PutOnList(t: nat, sock: nat, entry: Proxy, proto: Protocol) returns (ghost listed: Deed)
      requires Valid() && t < |threads| && threads[t] == Validator(sock, entry, Push(proto)) && sock < |proxies|
      requires proto != ProtoNull
      modifies this
      ensures Valid() && birth == old(birth) && old(run) < run && old(now) <= now && t < |threads|
      ensures threads[t] == Validator(sock, entry, Release(Good)) && Holds(t, sock, old(proxies[sock]))
      ensures Did(listed, t, |old(run)|) && listed.n == |old(run)|
      ensures listed.after.valids == Listed(listed.before.valids, proto, sock)
      ensures old(schedule) == [] ==>
                && schedule == [] && proxies == old(proxies) && stats == old(stats)
                && valids == Listed(old(valids), proto, sock)
    {
      CounterInRange(t);
      listed := AtomicDeed(t, Says(true), PushValid(proto, sock), Validator(sock, entry, Release(Good)));
    }

    /** The branch of a proxy whose protocol is known: one check over it. */
    method CheckAgain(t: nat, sock: nat, entry: Proxy, net: Network) returns (verdict: Verdict, left: Proxy)
      requires Valid() && t < |threads| && threads[t] == Validator(sock, entry, Probe(entry.Protocol(), {}, false, 0))
      requires Holds(t, sock, entry.(locked := true)) && !Fresh(entry)
      modifies this
      ensures Valid() && birth == old(birth) && old(run) < run && old(now) <= now && t < |threads|
      ensures threads[t] == Validator(sock, entry, Release(verdict)) && Holds(t, sock, left)
      ensures verdict == if net(entry.Protocol()).Some? then Good else Bad
      ensures left == Concluded(entry, [], net, left.lastValidated) && left.cell == entry.cell
      ensures Judged(entry, left, verdict, closed)
      ensures verdict == Good ==> old(now) <= left.lastValidated <= now
      ensures AloneTallied(sock, verdict)
    {
      var ok := SingleProxyCheck(t, sock, entry.Protocol(), net, entry, {}, false, 0);
      if !ok {
        left := MarkSockBad(t, sock, entry, 1);
        return Bad, left;
      }
      verdict, left := Conclude(t, sock, entry, 1);
    }

    /** The branch of a proxy never validated: every protocol, then the verdict. */
    method CheckFresh(t: nat, sock: nat, entry: Proxy, order: seq<Protocol>, net: Network)
      returns (verdict: Verdict, left: Proxy)
      requires Valid() && t < |threads| && threads[t] == Validator(sock, entry, Try(TRIED, 0))
      requires Holds(t, sock, entry.(locked := true)) && Fresh(entry) && Walk(order)
      requires entry.Protocol() == ProtoNull && !entry.cell.fired
      modifies this
      ensures Valid() && birth == old(birth) && old(run) < run && old(now) <= now && t < |threads|
      ensures threads[t] == Validator(sock, entry, Release(verdict)) && Holds(t, sock, left) && left.locked
      ensures Explains(verdict, entry, left, order, net)
      ensures verdict == Good || verdict == Bad || (verdict == CutShort && closed)
      ensures verdict == Good || verdict == Bad ==>
                (verdict == Good <==>
                   net(ProtoSOCKS4).Some? || net(ProtoSOCKS4a).Some? || net(ProtoSOCKS5).Some?)
      ensures verdict == Good ==> net(left.Protocol()).Some?
      ensures Judged(entry, left, verdict, closed)
      ensures verdict == Good ==> old(now) <= left.lastValidated <= now
      ensures AloneTallied(sock, verdict)
    {
      var finished := TryAll(t, sock, entry, order, net);
      if !finished {
        return CutShort, proxies[sock];
      }
      TriedKeepsTally(entry.(locked := true), order, net);
      WalkWins(entry.(locked := true), order, net);
      verdict, left := Conclude(t, sock, entry, 3);
    }

    /** validate(). Whatever runs beside it, a call that finds its record unlocked
        leaves it as the whole call by itself would: by the network's answers alone
        it is validated once or marked bad once, with the first success's
        protocol, unless a limiter or the shutdown stops it. How it leaves the
        record is how its own release of the lock finds it. */
    method Validate(t: nat, sock: nat, useLimited: bool, badLimited: bool, order: seq<Protocol>, net: Network)
      returns (verdict: Verdict, entry: Proxy, left: Proxy, ghost release: Deed)
      requires Valid() && t < |threads| && threads[t].Validator? && threads[t].sock == sock && threads[t].v == Cas
      requires Walk(order)
      modifies this
      ensures Valid() && birth == old(birth) && old(run) < run && old(now) <= now && t < |threads|
      ensures threads[t] == Finished(Validated(verdict))
      ensures Explains(verdict, entry, left, order, net)
      ensures sock < |old(proxies)| && entry == old(proxies)[sock]
      ensures verdict == Refused <==> entry.locked
      ensures verdict == CutShort ==> closed
      ensures verdict != Refused && verdict != CutShort ==> (verdict == Limited <==> useLimited || badLimited)
      ensures (verdict == Good || verdict == Bad) && entry.Protocol() != ProtoNull ==>
                (verdict == Good <==> net(entry.Protocol()).Some?)
      ensures (verdict == Good || verdict == Bad) && entry.Protocol() == ProtoNull ==>
                (verdict == Good <==>
                   net(ProtoSOCKS4).Some? || net(ProtoSOCKS4a).Some? || net(ProtoSOCKS5).Some?)
      ensures verdict == Good ==>
                && left.timesValidated == entry.timesValidated + 1 && left.timesBad == entry.timesBad
                && net(left.Protocol()).Some?
      ensures verdict == Bad ==>
                && left.timesBad == entry.timesBad + 1 && left.timesValidated == entry.timesValidated
                && left.lastValidated == entry.lastValidated && left.cell == entry.cell
      ensures old(closed) ==> verdict == Refused || verdict == CutShort
      ensures verdict == Good ==> old(now) <= left.lastValidated <= now
      ensures verdict != Refused ==>
                && left.locked && Did(release, t, |old(run)|)
                && sock < |release.before.proxies| && release.before.proxies[sock] == left
                && release.after.proxies == release.before.proxies[sock := left.(locked := false)]
      ensures AloneTallied(sock, verdict)
      ensures old(schedule) == [] ==>
                proxies == if verdict == Refused then old(proxies) else old(proxies)[sock := left.(locked := false)]
    {
      var admitted: bool;
      admitted, entry := Admit(t, sock);
      left, release := entry, Deed(0, old(Abs()), old(Abs()));
      if !admitted {
        return Refused, entry, left, release;
      }
      left := proxies[sock];
      if threads[t] == Validator(sock, entry, Release(CutShort)) {
        verdict := CutShort;
      } else {
        verdict, left := Decide(t, sock, entry, useLimited, badLimited, order, net);
      }
      release := Unlock(t, sock, entry, verdict, left);
    }

    /** The deferred release of the lock. */
    method Unlock(t: nat, sock: nat, entry: Proxy, verdict: Verdict, left: Proxy) returns (ghost release: Deed)
      requires Valid() && t < |threads| && threads[t] == Validator(sock, entry, Release(verdict))
      requires Holds(t, sock, left)
      modifies this
      ensures Valid() && birth == old(birth) && old(run) < run && old(now) <= now && (old(closed) ==> closed)
      ensures t < |threads| && threads[t] == Finished(Validated(verdict))
      ensures Did(release, t, |old(run)|)
      ensures sock < |release.before.proxies| && release.before.proxies[sock] == left
      ensures release.after.proxies == release.before.proxies[sock := left.(locked := false)]
      ensures old(schedule) == [] ==>
                && schedule == [] && proxies == old(proxies)[sock := left.(locked := false)]
                && valids == old(valids) && stats == old(stats)
    {
      CounterInRange(t);
      release := AtomicDeed(t, Says(true), Write(sock, left.(locked := false)), Finished(Validated(verdict)));
    }

    /** The limiters, and the switch over what is known of the proxy. */
    method Decide(t: nat, sock: nat, entry: Proxy, useLimited: bool, badLimited: bool,
                  order: seq<Protocol>, net: Network)
      returns (verdict: Verdict, left: Proxy)
      requires Valid() && t < |threads| && threads[t] == Validator(sock, entry, Limits)
      requires Holds(t, sock, entry.(locked := true)) && Walk(order)
      modifies this
      ensures Valid() && birth == old(birth) && old(run) < run && old(now) <= now && t < |threads|
      ensures threads[t] == Validator(sock, entry, Release(verdict)) && Holds(t, sock, left) && left.locked
      ensures Explains(verdict, entry, left, order, net)
      ensures verdict == CutShort ==> closed
      ensures verdict != CutShort ==> (verdict == Limited <==> useLimited || badLimited)
      ensures (verdict == Good || verdict == Bad) && entry.Protocol() != ProtoNull ==>
                (verdict == Good <==> net(entry.Protocol()).Some?)
      ensures (verdict == Good || verdict == Bad) && entry.Protocol() == ProtoNull ==>
                (verdict == Good <==>
                   net(ProtoSOCKS4).Some? || net(ProtoSOCKS4a).Some? || net(ProtoSOCKS5).Some?)
      ensures verdict == Good ==> net(left.Protocol()).Some?
      ensures Judged(entry, left, verdict, closed)
      ensures verdict == Good ==> old(now) <= left.lastValidated <= now
      ensures verdict != Refused
      ensures AloneTallied(sock, verdict)
    {
      CounterInRange(t);
      EntryIsSettled(t);
      if useLimited || badLimited {
        Atomic(t, Limiters(useLimited, badLimited), Read, Validator(sock, entry, Release(Limited)));
        return Limited, proxies[sock];
      }
      if Fresh(entry) {
        Atomic(t, Limiters(false, false), Read, Validator(sock, entry, Try(TRIED, 0)));
        verdict, left := CheckFresh(t, sock, entry, order, net);
      } else {
        Atomic(t, Limiters(false, false), Read, Validator(sock, entry, Probe(entry.Protocol(), {}, false, 0)));
        verdict, left := CheckAgain(t, sock, entry, net);
      }
    }

    // -------------------------------------------------------------- stillGood(), GetAnySOCKS()

    /** stillGood(): takes the lock if it is free and looks at failures, the
        bad-proxy limiter and the age of the last validation. A proxy it accepts
        it has judged good, as the history of the engine tells. By itself it
        accepts exactly the acceptable, and one over the limit leaves the map. */
    method StillGoodNow(t: nat, c: Caller, sock: nat, todo: seq<Protocol>, badPeek: bool) returns (ok: bool)
      requires Valid() && t < |threads| && threads[t] == StillGood(c, sock, todo, SgCas)
      modifies this
      ensures Valid() && birth == old(birth) && old(run) < run && old(now) <= now && t < |threads|
      ensures threads[t] == if ok then Kept(c, sock) else Onward(c, todo)
      ensures ok ==> !badPeek && GoodDuring(t, sock, |old(run)|)
      ensures AloneKept()
      ensures sock < |old(proxies)|
      ensures old(schedule) == [] ==>
                && (ok <==>
                      && !old(proxies)[sock].locked && !badPeek
                      && (!old(opt.recycle) || old(opt.removeAfter) == -1
                          || old(proxies)[sock].timesBad <= old(opt.removeAfter))
                      && old(now) - old(proxies)[sock].lastValidated <= old(opt.stale))
                && proxies == old(proxies) && valids == old(valids)
                && plot == if !old(proxies)[sock].locked && old(opt.recycle) && old(opt.removeAfter) != -1
                              && old(proxies)[sock].timesBad > old(opt.removeAfter)
                           then old(plot) - {old(proxies)[sock].endpoint} else old(plot)
    {
      ghost var was, ran := Abs(), run;
      CounterInRange(t);
      if proxies[sock].locked {
        Atomic(t, Says(badPeek), Read, Onward(c, todo));
        return false;
      }
      ok := LockAndJudge(t, c, sock, todo, badPeek);
      if ok {
        WasJudged(t, sock, was, ran);
      }
    }

    /** stillGood() when it finds the lock free. */
    method LockAndJudge(t: nat, c: Caller, sock: nat, todo: seq<Protocol>, badPeek: bool) returns (ok: bool)
      requires Valid() && t < |threads| && threads[t] == StillGood(c, sock, todo, SgCas)
      requires sock < |proxies| && !proxies[sock].locked
      modifies this
      ensures Valid() && birth == old(birth) && old(run) < run && old(now) <= now && t < |threads|
      ensures threads[t] == if ok then Kept(c, sock) else Onward(c, todo)
      ensures ok ==> !badPeek
      ensures AloneKept()
      ensures old(schedule) == [] ==>
                && (ok <==>
                      && LimitAllows(old(Abs()), sock) && !badPeek
                      && old(now) - old(proxies)[sock].lastValidated <= old(opt.stale))
                && proxies == old(proxies) && valids == old(valids)
                && plot == if LimitAllows(old(Abs()), sock) then old(plot)
                           else old(plot) - {old(proxies)[sock].endpoint}
    {
      CounterInRange(t);
      var r := proxies[sock];
      Atomic(t, Says(badPeek), Write(sock, r.(locked := true)), StillGood(c, sock, todo, SgCount));
      ok := JudgeLocked(t, c, sock, todo, r.(locked := true), badPeek);
    }

    /** stillGood() from the lock to its release. */
    method JudgeLocked(t: nat, c: Caller, sock: nat, todo: seq<Protocol>, judged: Proxy, badPeek: bool)
      returns (ok: bool)
      requires Valid() && t < |threads| && threads[t] == StillGood(c, sock, todo, SgCount) && Holds(t, sock, judged)
      modifies this
      ensures Valid() && birth == old(birth) && old(run) < run && old(now) <= now && t < |threads|
      ensures threads[t] == if ok then Kept(c, sock) else Onward(c, todo)
      ensures ok ==> !badPeek
      ensures AloneKept()
      ensures old(schedule) == [] ==>
                && sock < |old(proxies)|
                && (ok <==>
                      && LimitAllows(old(Abs()), sock) && !badPeek
                      && old(now) - old(proxies)[sock].lastValidated <= old(opt.stale))
                && proxies == old(proxies)[sock := judged.(locked := false)] && valids == old(valids)
                && plot == if LimitAllows(old(Abs()), sock) then old(plot) else old(plot) - {judged.endpoint}
    {
      var passed, limit;
      ghost var second, expelled;
      passed, limit, second, expelled := CheckFailures(t, c, sock, todo, judged, badPeek);
      ok := false;
      if passed {
        ok := CheckAge(t, c, sock, todo, limit);
      }
    }

    /** The count of failures against removeafter, which is read twice, and the
        bad-proxy limiter. A proxy over the limit leaves the map. */
    method CheckFailures(t: nat, c: Caller, sock: nat, todo: seq<Protocol>, judged: Proxy, badPeek: bool)
      returns (passed: bool, limit: int, ghost second: Look, ghost expelled: Deed)
      requires Valid() && t < |threads| && threads[t] == StillGood(c, sock, todo, SgCount) && Holds(t, sock, judged)
      modifies this
      ensures Valid() && birth == old(birth) && old(run) < run && old(now) <= now && t < |threads|
      ensures Seen(second, |old(run)|)
      ensures passed <==>
                (old(RemoveAfter(Abs())) == -1 || judged.timesBad <= RemoveAfter(second.at)) && !badPeek
      ensures old(RemoveAfter(Abs())) != -1 && judged.timesBad > RemoveAfter(second.at) ==>
                Did(expelled, t, |old(run)|) && expelled.after.plot == expelled.before.plot - {judged.endpoint}
      ensures if passed then threads[t] == StillGood(c, sock, todo, SgStale(limit)) && Holds(t, sock, judged)
              else threads[t] == Onward(c, todo)
      ensures AloneKept()
      ensures old(schedule) == [] ==>
                && RemoveAfter(second.at) == old(RemoveAfter(Abs())) && valids == old(valids)
                && proxies == (if passed then old(proxies) else old(proxies)[sock := judged.(locked := false)])
                && plot == if LimitAllows(old(Abs()), sock) then old(plot) else old(plot) - {judged.endpoint}
    {
      limit := RemoveAfter(Abs());
      second, expelled := Look(|run|, Abs()), Deed(0, Abs(), Abs());
      SeenNow(second);
      CounterInRange(t);
      if limit == -1 {
        ghost var ran := run;
        passed := PassLimit(t, c, sock, todo, judged, limit, badPeek);
        SeenStays(birth, ran, run, second, |ran|);
      } else {
        Atomic(t, Says(badPeek), Read, StillGood(c, sock, todo, SgLimit));
        passed, limit, second, expelled := CompareLimit(t, c, sock, todo, judged, badPeek);
      }
    }

    /** The second reading of removeafter, and the comparison with the failures. */
    method CompareLimit(t: nat, c: Caller, sock: nat, todo: seq<Protocol>, judged: Proxy, badPeek: bool)
      returns (passed: bool, limit: int, ghost second: Look, ghost expelled: Deed)
      requires Valid() && t < |threads| && threads[t] == StillGood(c, sock, todo, SgLimit) && Holds(t, sock, judged)
      modifies this
      ensures Valid() && birth == old(birth) && old(run) < run && old(now) <= now && t < |threads|
      ensures Seen(second, |old(run)|) && RemoveAfter(second.at) == old(RemoveAfter(Abs()))
      ensures passed <==> judged.timesBad <= old(RemoveAfter(Abs())) && !badPeek
      ensures judged.timesBad > old(RemoveAfter(Abs())) ==>
                Did(expelled, t, |old(run)|) && expelled.after.plot == expelled.before.plot - {judged.endpoint}
      ensures if passed then threads[t] == StillGood(c, sock, todo, SgStale(limit)) && Holds(t, sock, judged)
              else threads[t] == Onward(c, todo)
      ensures AloneKept()
      ensures old(schedule) == [] ==>
                && valids == old(valids)
                && proxies == (if passed then old(proxies) else old(proxies)[sock := judged.(locked := false)])
                && plot == if judged.timesBad <= old(RemoveAfter(Abs())) then old(plot)
                           else old(plot) - {judged.endpoint}
    {
      ghost var ran := run;
      limit := RemoveAfter(Abs());
      second, expelled := Look(|run|, Abs()), Deed(0, Abs(), Abs());
      SeenNow(second);
      CounterInRange(t);
      if judged.timesBad > limit {
        Atomic(t, Says(badPeek), Read, StillGood(c, sock, todo, SgDelete));
        ghost var run1 := run;
        expelled := Expel(t, c, sock, todo, judged);
        DidSince(birth, run, expelled, t, |ran|, |run1|);
        passed := false;
      } else {
        passed := PassLimit(t, c, sock, todo, judged, limit, badPeek);
      }
      SeenStays(birth, ran, run, second, |ran|);
    }

    /** Within the limit: the step that says so, and the limiter. */
    method PassLimit(t: nat, c: Caller, sock: nat, todo: seq<Protocol>, judged: Proxy, limit: int, badPeek: bool)
      returns (passed: bool)
      requires Valid() && t < |threads| && Holds(t, sock, judged) && limit == RemoveAfter(Abs())
      requires || (threads[t] == StillGood(c, sock, todo, SgCount) && limit == -1)
               || (threads[t] == StillGood(c, sock, todo, SgLimit) && judged.timesBad <= limit)
      modifies this
      ensures Valid() && birth == old(birth) && old(run) < run && old(now) <= now && t < |threads|
      ensures passed == !badPeek
      ensures if passed then threads[t] == StillGood(c, sock, todo, SgStale(limit)) && Holds(t, sock, judged)
              else threads[t] == Onward(c, todo)
      ensures AloneKept()
      ensures old(schedule) == [] ==>
                && valids == old(valids) && plot == old(plot)
                && proxies == if passed then old(proxies) else old(proxies)[sock := judged.(locked := false)]
    {
      CounterInRange(t);
      Atomic(t, Says(badPeek), Read, StillGood(c, sock, todo, SgPeek(limit)));
      passed := CheckLimiter(t, c, sock, todo, judged, limit, badPeek);
    }

    /** A proxy over the limit leaves the map. */
    method Expel(t: nat, c: Caller, sock: nat, todo: seq<Protocol>, judged: Proxy) returns (ghost expelled: Deed)
      requires Valid() && t < |threads| && threads[t] == StillGood(c, sock, todo, SgDelete) && Holds(t, sock, judged)
      modifies this
      ensures Valid() && birth == old(birth) && old(run) < run && old(now) <= now && t < |threads|
      ensures threads[t] == Onward(c, todo)
      ensures Did(expelled, t, |old(run)|) && expelled.after.plot == expelled.before.plot - {judged.endpoint}
      ensures AloneKept()
      ensures old(schedule) == [] ==>
                && valids == old(valids) && plot == old(plot) - {judged.endpoint}
                && proxies == old(proxies)[sock := judged.(locked := false)]
    {
      CounterInRange(t);
      expelled := AtomicDeed(t, Says(true), MapDelete(judged.endpoint), StillGood(c, sock, todo, SgDrop));
      ghost var run1 := run;
      Reject(t, c, sock, todo);
      DidStays(birth, run1, run, expelled, t, |old(run)|);
    }

    /** The bad-proxy limiter. */
    method CheckLimiter(t: nat, c: Caller, sock: nat, todo: seq<Protocol>, judged: Proxy, limit: int, badPeek: bool)
      returns (passed: bool)
      requires Valid() && t < |threads| && threads[t] == StillGood(c, sock, todo, SgPeek(limit))
      requires Holds(t, sock, judged)
      modifies this
      ensures Valid() && birth == old(birth) && old(run) < run && old(now) <= now && t < |threads|
      ensures passed == !badPeek
      ensures if passed then threads[t] == StillGood(c, sock, todo, SgStale(limit)) && Holds(t, sock, judged)
              else threads[t] == Onward(c, todo)
      ensures AloneKept()
      ensures old(schedule) == [] ==>
                && valids == old(valids) && plot == old(plot)
                && proxies == if passed then old(proxies) else old(proxies)[sock := judged.(locked := false)]
    {
      CounterInRange(t);
      if badPeek {
        Atomic(t, Says(badPeek), Read, StillGood(c, sock, todo, SgDrop));
        Reject(t, c, sock, todo);
        return false;
      }
      Atomic(t, Says(badPeek), Read, StillGood(c, sock, todo, SgStale(limit)));
      return true;
    }

    /** The lock is given back on a proxy that is not good any more. */
    method Reject(t: nat, c: Caller, sock: nat, todo: seq<Protocol>)
      requires Valid() && t < |threads| && threads[t] == StillGood(c, sock, todo, SgDrop) && sock < |proxies|
      modifies this
      ensures Valid() && birth == old(birth) && old(run) < run && old(now) <= now && t < |threads|
      ensures threads[t] == Onward(c, todo)
      ensures AloneKept()
      ensures old(schedule) == [] ==>
                && valids == old(valids) && plot == old(plot) && stats == old(stats)
                && proxies == old(proxies)[sock := old(proxies)[sock].(locked := false)]
    {
      CounterInRange(t);
      Atomic(t, Says(true), Write(sock, proxies[sock].(locked := false)), Onward(c, todo));
    }

    /** The age of the last validation, judged by one reading of the clock and of the window. */
    method CheckAge(t: nat, c: Caller, sock: nat, todo: seq<Protocol>, limit: int) returns (ok: bool)
      requires Valid() && t < |threads| && threads[t] == StillGood(c, sock, todo, SgStale(limit))
      requires sock < |proxies|
      modifies this
      ensures Valid() && birth == old(birth) && old(run) < run && old(now) <= now && t < |threads|
      ensures threads[t] == if ok then Kept(c, sock) else Onward(c, todo)
      ensures ok <==> old(now) - old(proxies)[sock].lastValidated <= old(opt.stale)
      ensures AloneKept()
      ensures old(schedule) == [] ==>
                && valids == old(valids) && plot == old(plot)
                && stats == (if ok then old(stats) else old(stats).(stale := old(stats.stale) + 1))
                && proxies == old(proxies)[sock := old(proxies)[sock].(locked := false)]
    {
      CounterInRange(t);
      var asOf, window := now, opt.stale;
      ok := !(now - proxies[sock].lastValidated > opt.stale);
      if !ok {
        Atomic(t, Says(true), CountStale, StillGood(c, sock, todo, SgDrop));
        Reject(t, c, sock, todo);
      } else {
        Atomic(t, Says(true), Read, StillGood(c, sock, todo, SgKeep(limit, asOf, window)));
        Atomic(t, Says(true), Write(sock, proxies[sock].(locked := false)), Kept(c, sock));
      }
    }

    /** One look at the front of one list: the length under the read lock, then
        pop() which looks again. By itself it takes the front off and hands it out iff it is acceptable. */
    method TryList(t: nat, c: Caller, proto: Protocol, rest: seq<Protocol>, badPeek: bool) returns (found: Option<nat>)
      requires Valid() && t < |threads| && threads[t] == GetAny(c, Scan([proto] + rest)) && !c.Str?
      modifies this
      ensures Valid() && birth == old(birth) && old(run) < run && old(now) <= now && t < |threads|
      ensures threads[t] == if found.Some? then GetAny(c, Exit(found)) else GetAny(c, Scan(rest))
      ensures found.Some? ==> GoodDuring(t, found.value, |old(run)|)
      ensures AloneKept()
      ensures old(schedule) == [] ==>
                && proto != ProtoNull
                && valids == old(valids).Set(proto, Behind(old(valids).Get(proto), 1)) && proxies == old(proxies)
                && found == FrontIf(old(Abs()), old(valids).Get(proto), badPeek)
    {
      CounterInRange(t);
      SocksFront(proto, rest);
      if |valids.Get(proto)| < 1 {
        Atomic(t, Says(true), Read, GetAny(c, Scan(rest)));
        return None;
      }
      Atomic(t, Says(true), Read, GetAny(c, Pop(proto, rest)));
      found := PopAndJudge(t, c, proto, rest, badPeek);
    }

    /** pop(), and stillGood() on what it took. */
    method PopAndJudge(t: nat, c: Caller, proto: Protocol, rest: seq<Protocol>, badPeek: bool)
      returns (found: Option<nat>)
      requires Valid() && t < |threads| && threads[t] == GetAny(c, Pop(proto, rest)) && !c.Str? && proto != ProtoNull
      modifies this
      ensures Valid() && birth == old(birth) && old(run) < run && old(now) <= now && t < |threads|
      ensures threads[t] == if found.Some? then GetAny(c, Exit(found)) else GetAny(c, Scan(rest))
      ensures found.Some? ==> GoodDuring(t, found.value, |old(run)|)
      ensures AloneKept()
      ensures old(schedule) == [] ==>
                && valids == old(valids).Set(proto, Behind(old(valids).Get(proto), 1)) && proxies == old(proxies)
                && found == FrontIf(old(Abs()), old(valids).Get(proto), badPeek)
    {
      ghost var was, ran := Abs(), run;
      CounterInRange(t);
      if |valids.Get(proto)| < 1 {
        Atomic(t, Says(true), Read, GetAny(c, Scan(rest)));
        return None;
      }
      var sock := PopFront(t, c, proto, rest);
      var ok := StillGoodNow(t, c, sock, rest, badPeek);
      if !ok {
        return None;
      }
      WasJudged(t, sock, was, ran);
      return Some(sock);
    }

    /** The removal in pop(). */
    method PopFront(t: nat, c: Caller, proto: Protocol, rest: seq<Protocol>) returns (sock: nat)
      requires Valid() && t < |threads| && threads[t] == GetAny(c, Pop(proto, rest)) && !c.Str? && proto != ProtoNull
      requires |valids.Get(proto)| > 0
      modifies this
      ensures Valid() && birth == old(birth) && old(run) < run && old(now) <= now && t < |threads|
      ensures sock == old(valids).Get(proto)[0] && threads[t] == StillGood(c, sock, rest, SgCas)
      ensures AloneKept()
      ensures old(schedule) == [] ==>
                && valids == old(valids).Set(proto, Behind(old(valids).Get(proto), 1)) && proxies == old(proxies)
                && forall p, b :: Acceptable(Abs(), p, b) == Acceptable(old(Abs()), p, b)
    {
      CounterInRange(t);
      sock := valids.Get(proto)[0];
      Atomic(t, Says(true), PopValid(proto), StillGood(c, sock, rest, SgCas));
    }

    /** One pass over the shuffled lists. */
    method ScanLists(t: nat, c: Caller, order: seq<Protocol>, badPeek: Protocol -> bool) returns (found: Option<nat>)
      requires Valid() && t < |threads| && threads[t] == GetAny(c, Scan(order)) && !c.Str?
      modifies this
      ensures Valid() && birth == old(birth) && old(run) < run && old(now) <= now && t < |threads|
      ensures threads[t] == if found.Some? then GetAny(c, Exit(found)) else GetAny(c, Loop)
      ensures found.Some? ==> GoodDuring(t, found.value, |old(run)|)
      ensures AloneKept()
      ensures old(schedule) == [] && found == None && SocksOnly(order) ==> valids == Fruitless(old(valids), order)
      ensures old(schedule) == [] && found == None && SocksOnly(order) && NoRepeat(order) ==>
                NothingInFront(old(Abs()), order, badPeek)
    {
      ghost var was, ran := Abs(), run;
      var i := 0;
      assert order[0..] == order && order[..0] == [];
      while i < |order|
        invariant 0 <= i <= |order|
        invariant Valid() && birth == old(birth) && old(run) <= run && old(now) <= now && t < |threads|
        invariant threads[t] == GetAny(c, Scan(order[i..]))
        invariant AloneKept()
        invariant old(schedule) == [] ==> Scanned(was, Abs(), order, i, badPeek)
      {
        found := ScanOne(t, c, order, i, badPeek, was, old(schedule) == []);
        if found.Some? {
          WasJudged(t, found.value, was, ran);
          return;
        }
        i := i + 1;
      }
      assert order[..i] == order;
      CounterInRange(t);
      Atomic(t, Says(true), Read, GetAny(c, Loop));
      return None;
    }

    /** One list of the pass. */
    method ScanOne(t: nat, c: Caller, order: seq<Protocol>, i: nat, badPeek: Protocol -> bool,
                   ghost was: State, ghost alone: bool)
      returns (found: Option<nat>)
      requires Valid() && i < |order| && t < |threads| && threads[t] == GetAny(c, Scan(order[i..])) && !c.Str?
      requires alone ==> schedule == [] && Scanned(was, Abs(), order, i, badPeek)
      modifies this
      ensures Valid() && birth == old(birth) && old(run) < run && old(now) <= now && t < |threads|
      ensures threads[t] == if found.Some? then GetAny(c, Exit(found)) else GetAny(c, Scan(order[i + 1..]))
      ensures found.Some? ==> GoodDuring(t, found.value, |old(run)|)
      ensures AloneKept()
      ensures alone && found == None ==> Scanned(was, Abs(), order, i + 1, badPeek)
    {
      assert order[i..] == [order[i]] + order[i + 1..];
      ghost var s := Abs();
      found := TryList(t, c, order[i], order[i + 1..], badPeek(order[i]));
      if alone && found == None {
        ScannedOneMore(was, s, Abs(), order, i, badPeek);
      }
    }

    /** The deferred count of dispensed proxies, and the return to the caller. */
    method ReturnProxy(t: nat, c: Caller, found: Option<nat>)
      requires Valid() && t < |threads| && threads[t] == GetAny(c, Exit(found)) && !c.Str?
      modifies this
      ensures Valid() && birth == old(birth) && old(run) < run && old(now) <= now && t < |threads|
      ensures threads[t] == Back(c, found)
      ensures found.Some? ==> found.value < |proxies| && Proven(proxies[found.value])
      ensures found == None ==> closed
      ensures AloneKept()
      ensures old(schedule) == [] ==> valids == old(valids)
    {
      CounterInRange(t);
      Atomic(t, Says(true), CountDispensed, Back(c, found));
      ClosedIfNothing(t, c, found);
    }

    lemma ClosedIfNothing(t: nat, c: Caller, found: Option<nat>)
      requires Valid() && t < |threads| && threads[t] == Back(c, found) && !c.Str?
      ensures found.Some? ==> found.value < |proxies| && Proven(proxies[found.value])
      ensures found == None ==> closed
    {
      ValidIsReachable();
      assert Knows(Abs(), threads[t]);
    }

    /** A call that has its answer, seen from where it began. */
    lemma AnswerIsJudged(t: nat, c: Caller, found: Option<nat>, was: State, ran: seq<Action>)
      requires Valid() && t < |threads| && threads[t] == Back(c, found) && !c.Str?
      requires ran <= run && Reached(birth, ran, was) && t < |was.threads| && was.threads[t] == GetAny(c, Loop)
      ensures found.Some? ==>
                found.value < |proxies| && Proven(proxies[found.value]) && GoodDuring(t, found.value, |ran|)
      ensures found == None ==> closed
    {
      ClosedIfNothing(t, c, found);
      if found.Some? {
        WasJudged(t, found.value, was, ran);
      }
    }

    /** One pass of GetAnySOCKS: nil if the engine is closed, else a look at every list. */
    method OnePass(t: nat, c: Caller, order: seq<Protocol>, badPeek: Protocol -> bool)
      returns (done: bool, found: Option<nat>)
      requires Valid() && t < |threads| && threads[t] == GetAny(c, Loop) && !c.Str?
      requires SocksOnly(order) && multiset(order) == multiset(TRIED)
      modifies this
      ensures Valid() && birth == old(birth) && old(run) < run && old(now) <= now && t < |threads|
      ensures threads[t] == if done then Back(c, found) else GetAny(c, Loop)
      ensures done && found.Some? ==> found.value < |proxies| && Proven(proxies[found.value])
      ensures done && found.Some? ==> GoodDuring(t, found.value, |old(run)|)
      ensures old(closed) <==> done && found == None
      ensures old(closed) ==> closed
      ensures AloneKept()
      ensures old(schedule) == [] && !done ==>
                && valids == Fruitless(old(valids), order) && AllBehind(old(valids), valids, 1)
                && NoneServable(old(Abs()), badPeek)
    {
      CounterInRange(t);
      if closed {
        Atomic(t, Shuffled(order), Read, GetAny(c, Exit(None)));
        ReturnProxy(t, c, None);
        return true, None;
      }
      FruitlessPass(valids, valids, order, 0);
      done, found := OpenPass(t, c, order, badPeek);
    }

    /** A pass over the lists of an open engine. */
    method OpenPass(t: nat, c: Caller, order: seq<Protocol>, badPeek: Protocol -> bool)
      returns (done: bool, found: Option<nat>)
      requires Valid() && t < |threads| && threads[t] == GetAny(c, Loop) && !c.Str? && !closed
      requires SocksOnly(order) && multiset(order) == multiset(TRIED)
      modifies this
      ensures Valid() && birth == old(birth) && old(run) < run && old(now) <= now && t < |threads|
      ensures threads[t] == if done then Back(c, found) else GetAny(c, Loop)
      ensures done == found.Some?
      ensures done ==> found.value < |proxies| && Proven(proxies[found.value]) && GoodDuring(t, found.value, |old(run)|)
      ensures AloneKept()
      ensures old(schedule) == [] && !done ==>
                valids == Fruitless(old(valids), order) && NoneServable(old(Abs()), badPeek)
    {
      ghost var was, ran := Abs(), run;
      CounterInRange(t);
      Atomic(t, Shuffled(order), Read, GetAny(c, Scan(order)));
      ghost var s1 := Abs();
      found := ScanLists(t, c, order, badPeek);
      done := found.Some?;
      ShuffleVisitsEach(order);
      if done {
        ReturnProxy(t, c, found);
        WasJudged(t, found.value, was, ran);
      } else if old(schedule) == [] {
        NothingServable(was, s1, order, badPeek);
      }
    }

    /** One pass after n others. */
    method PassMore(t: nat, c: Caller, order: seq<Protocol>, badPeek: Protocol -> bool,
                    ghost alone: bool, ghost first: PerProto<seq<nat>>, ghost n: nat)
      returns (done: bool, found: Option<nat>)
      requires Valid() && t < |threads| && threads[t] == GetAny(c, Loop) && !c.Str?
      requires SocksOnly(order) && multiset(order) == multiset(TRIED)
      requires alone ==> schedule == [] && AllBehind(first, valids, n)
      modifies this
      ensures Valid() && birth == old(birth) && old(run) < run && old(now) <= now && t < |threads|
      ensures threads[t] == if done then Back(c, found) else GetAny(c, Loop)
      ensures old(closed) <==> done && found == None
      ensures AloneKept()
      ensures alone && !done ==> AllBehind(first, valids, n + 1) && NoneServable(old(Abs()), badPeek)
    {
      ghost var before := valids;
      done, found := OnePass(t, c, order, badPeek);
      if alone && !done {
        AllBehindMore(first, before, valids, n);
      }
    }

    /** GetAnySOCKS(), for as many passes as there are shuffles: a proxy it
        returns has been validated and has passed stillGood() during the call; nil
        means closed. By itself, each pass without a find takes one proxy off every SOCKS list. */
    method GetAnySOCKS(t: nat, c: Caller, shuffles: seq<seq<Protocol>>, badPeek: nat -> Protocol -> bool)
      returns (done: bool, found: Option<nat>)
      requires Valid() && t < |threads| && threads[t] == GetAny(c, Loop) && !c.Str?
      requires Shuffles(shuffles)
      modifies this
      ensures Valid() && birth == old(birth) && old(run) <= run && old(now) <= now && t < |threads|
      ensures threads[t] == if done then Back(c, found) else GetAny(c, Loop)
      ensures done && found.Some? ==>
                && found.value < |proxies| && Proven(proxies[found.value])
                && GoodDuring(t, found.value, |old(run)|)
      ensures done && found == None ==> closed
      ensures old(closed) && |shuffles| > 0 ==> done && found == None
      ensures AloneKept()
      ensures old(schedule) == [] && !done ==> AllBehind(old(valids), valids, |shuffles|)
      ensures old(schedule) == [] && |shuffles| > 0 && !done ==> NoneServable(old(Abs()), badPeek(0))
    {
      ghost var was, ran := Abs(), run;
      var round := 0;
      done, found := false, None;
      NothingBehind(valids);
      while round < |shuffles| && !done
        invariant 0 <= round <= |shuffles|
        invariant Valid() && birth == old(birth) && old(run) <= run && old(now) <= now && t < |threads|
        invariant threads[t] == if done then Back(c, found) else GetAny(c, Loop)
        invariant if round == 0 then !done && (old(closed) ==> closed) else old(closed) ==> done && found == None
        invariant AloneKept()
        invariant old(schedule) == [] && !done ==> AllBehind(old(valids), valids, round)
        invariant round == 0 ==> Abs() == was
        invariant old(schedule) == [] && round > 0 && !done ==> NoneServable(was, badPeek(0))
      {
        done, found := PassMore(t, c, shuffles[round], badPeek(round), old(schedule) == [], old(valids), round);
        round := round + 1;
      }
      if done {
        AnswerIsJudged(t, c, found, was, ran);
      }
    }

    // -------------------------------------------------------------- getSocksStr()

    lemma EndpointInHand(t: nat, proto: Protocol, sock: nat)
      requires Valid() && t < |threads| && threads[t] == GetStr(proto, StrExit(sock))
      ensures sock < |proxies| && ProvenAs(proxies, sock, proto)
    {
      ValidIsReachable();
      assert Knows(Abs(), threads[t]);
    }

    lemma SlotNamed(t: nat)
      requires Valid() && t < |threads| && threads[t].GetStr?
      ensures threads[t].proto != ProtoNull
    {
      CounterInRange(t);
    }

    /** getSocksStr(), for as many turns of its loop as there are answers of the
        limiter. An endpoint it returns is that of a record validated as this
        protocol which passed stillGood() during the call; a nil dereference
        means that the list was emptied after its length was read. */
    method GetSocksStr(t: nat, proto: Protocol, badPeek: seq<bool>) returns (reply: StrReply)
      requires Valid() && t < |threads| && threads[t] == GetStr(proto, StrLoop)
      modifies this
      ensures Valid() && birth == old(birth) && old(run) <= run && old(now) <= now && t < |threads|
      ensures threads[t] == Replied(proto, reply)
      ensures reply.Endpoint? ==>
                && ProvenAs(proxies, reply.sock, proto) && proxies[reply.sock].endpoint == reply.endpoint
                && GoodDuring(t, reply.sock, |old(run)|)
      ensures AloneKept()
      ensures old(schedule) == [] ==> proto != ProtoNull && reply != Crashed
      ensures old(schedule) == [] && reply == StillWaiting ==>
                && valids.Get(proto) == Behind(old(valids).Get(proto), |badPeek|)
                && (|badPeek| > 0 ==> FrontIf(old(Abs()), old(valids).Get(proto), badPeek[0]) == None)
    {
      ghost var was, ran := Abs(), run;
      SlotNamed(t);
      var i := 0;
      reply := StillWaiting;
      while i < |badPeek| && reply == StillWaiting
        invariant 0 <= i <= |badPeek|
        invariant Valid() && birth == old(birth) && old(run) <= run && old(now) <= now && t < |threads|
        invariant threads[t] == Replied(proto, reply)
        invariant proto != ProtoNull && AloneKept()
        invariant old(schedule) == [] ==> reply != Crashed
        invariant old(schedule) == [] && reply == StillWaiting ==> TurnsWasted(was, Abs(), proto, i, badPeek)
      {
        reply := StrMore(t, proto, badPeek, i, was, old(schedule) == []);
        i := i + 1;
      }
      if reply.Endpoint? {
        EndpointIsJudged(t, proto, reply.sock, reply.endpoint, was, ran);
      }
    }

    lemma EndpointIsJudged(t: nat, proto: Protocol, sock: nat, endpoint: string, was: State, ran: seq<Action>)
      requires Valid() && t < |threads| && threads[t] == Finished(GotEndpoint(proto, sock, endpoint))
      requires ran <= run && Reached(birth, ran, was) && t < |was.threads| && was.threads[t].GetStr?
      requires was.threads[t].r == StrLoop || was.threads[t].r == StrRemove
      ensures ProvenAs(proxies, sock, proto) && proxies[sock].endpoint == endpoint && GoodDuring(t, sock, |ran|)
    {
      ValidIsReachable();
      assert Knows(Abs(), threads[t]);
      WasJudged(t, sock, was, ran);
    }

    /** One turn after i others. */
    method StrMore(t: nat, proto: Protocol, badPeek: seq<bool>, i: nat, ghost was: State, ghost alone: bool)
      returns (reply: StrReply)
      requires Valid() && t < |threads| && threads[t] == GetStr(proto, StrLoop) && proto != ProtoNull && i < |badPeek|
      requires alone ==> schedule == [] && TurnsWasted(was, Abs(), proto, i, badPeek)
      modifies this
      ensures Valid() && birth == old(birth) && old(run) < run && old(now) <= now && t < |threads|
      ensures threads[t] == Replied(proto, reply)
      ensures AloneKept()
      ensures alone ==> reply != Crashed && (reply == StillWaiting ==> TurnsWasted(was, Abs(), proto, i + 1, badPeek))
    {
      BehindMore(was.valids.Get(proto), i, 1);
      reply := StrTurn(t, proto, badPeek[i]);
    }

    /** One turn of the loop: the length of the list, and the removal if it is not zero. */
    method StrTurn(t: nat, proto: Protocol, badPeek: bool) returns (reply: StrReply)
      requires Valid() && t < |threads| && threads[t] == GetStr(proto, StrLoop) && proto != ProtoNull
      modifies this
      ensures Valid() && birth == old(birth) && old(run) < run && old(now) <= now && t < |threads|
      ensures threads[t] == Replied(proto, reply)
      ensures reply.Endpoint? ==>
                ProvenAs(proxies, reply.sock, proto) && proxies[reply.sock].endpoint == reply.endpoint
      ensures AloneKept()
      ensures old(schedule) == [] ==>
                && reply != Crashed && valids.Get(proto) == Behind(old(valids).Get(proto), 1)
                && (reply.Endpoint? <==> FrontIf(old(Abs()), old(valids).Get(proto), badPeek).Some?)
    {
      CounterInRange(t);
      if |valids.Get(proto)| == 0 {
        Atomic(t, Says(true), Read, GetStr(proto, StrLoop));
        return StillWaiting;
      }
      Atomic(t, Says(true), Read, GetStr(proto, StrRemove));
      reply := RemoveFront(t, proto, badPeek);
    }

    /** The removal of the front, which may be gone by now, stillGood() on it, and the count. */
    method RemoveFront(t: nat, proto: Protocol, badPeek: bool) returns (reply: StrReply)
      requires Valid() && t < |threads| && threads[t] == GetStr(proto, StrRemove) && proto != ProtoNull
      modifies this
      ensures Valid() && birth == old(birth) && old(run) < run && old(now) <= now && t < |threads|
      ensures reply == Crashed <==> old(valids).Get(proto) == []
      ensures threads[t] == Replied(proto, reply)
      ensures reply.Endpoint? ==>
                && reply.sock == old(valids).Get(proto)[0]
                && ProvenAs(proxies, reply.sock, proto) && proxies[reply.sock].endpoint == reply.endpoint
                && GoodDuring(t, reply.sock, |old(run)|)
      ensures AloneKept()
      ensures old(schedule) == [] ==>
                && valids == old(valids).Set(proto, Behind(old(valids).Get(proto), 1))
                && (reply.Endpoint? <==> FrontIf(old(Abs()), old(valids).Get(proto), badPeek).Some?)
    {
      CounterInRange(t);
      if |valids.Get(proto)| == 0 {
        Atomic(t, Says(true), Read, Finished(Drained(proto)));
        return Crashed;
      }
      reply := FrontEndpoint(t, proto, valids.Get(proto)[0], badPeek);
    }

    /** The front of the list is there: it is removed and judged. */
    method FrontEndpoint(t: nat, proto: Protocol, sock: nat, badPeek: bool) returns (reply: StrReply)
      requires Valid() && t < |threads| && threads[t] == GetStr(proto, StrRemove) && proto != ProtoNull
      requires |valids.Get(proto)| > 0 && sock == valids.Get(proto)[0]
      modifies this
      ensures Valid() && birth == old(birth) && old(run) < run && old(now) <= now && t < |threads|
      ensures reply != Crashed && threads[t] == Replied(proto, reply)
      ensures reply.Endpoint? ==>
                && reply.sock == sock
                && ProvenAs(proxies, sock, proto) && proxies[sock].endpoint == reply.endpoint
                && GoodDuring(t, sock, |old(run)|)
      ensures AloneKept()
      ensures old(schedule) == [] ==>
                && valids == old(valids).Set(proto, Behind(old(valids).Get(proto), 1))
                && (reply.Endpoint? <==> FrontIf(old(Abs()), old(valids).Get(proto), badPeek).Some?)
    {
      ghost var was, ran := Abs(), run;
      TakeFront(t, proto);
      var ok := StillGoodNow(t, Str(proto), sock, [], badPeek);
      if !ok {
        return StillWaiting;
      }
      var endpoint := DispenseEndpoint(t, proto, sock);
      WasJudged(t, sock, was, ran);
      return Endpoint(sock, endpoint);
    }

    method TakeFront(t: nat, proto: Protocol)
      requires Valid() && t < |threads| && threads[t] == GetStr(proto, StrRemove) && proto != ProtoNull
      requires |valids.Get(proto)| > 0
      modifies this
      ensures Valid() && birth == old(birth) && old(run) < run && old(now) <= now && t < |threads|
      ensures threads[t] == StillGood(Str(proto), old(valids).Get(proto)[0], [], SgCas)
      ensures AloneKept()
      ensures old(schedule) == [] ==>
                && valids == old(valids).Set(proto, Behind(old(valids).Get(proto), 1)) && proxies == old(proxies)
                && forall p, b :: Acceptable(Abs(), p, b) == Acceptable(old(Abs()), p, b)
    {
      CounterInRange(t);
      var sock := valids.Get(proto)[0];
      Atomic(t, Says(true), PopValid(proto), StillGood(Str(proto), sock, [], SgCas));
    }

    /** The count of dispensed proxies, and the endpoint. */
    method DispenseEndpoint(t: nat, proto: Protocol, sock: nat) returns (endpoint: string)
      requires Valid() && t < |threads| && threads[t] == GetStr(proto, StrExit(sock))
      modifies this
      ensures Valid() && birth == old(birth) && old(run) < run && old(now) <= now && t < |threads|
      ensures threads[t] == Finished(GotEndpoint(proto, sock, endpoint))
      ensures ProvenAs(proxies, sock, proto) && proxies[sock].endpoint == endpoint
      ensures AloneKept()
      ensures old(schedule) == [] ==> valids == old(valids)
    {
      EndpointInHand(t, proto, sock);
      CounterInRange(t);
      endpoint := proxies[sock].endpoint;
      Atomic(t, Says(true), CountDispensed, Finished(GotEndpoint(proto, sock, endpoint)));
      ValidIsReachable();
      assert Knows(Abs(), threads[t]);
    }

    // -------------------------------------------------------------- mysteryDialer()

    lemma DialerHasProven(t: nat)
      requires Valid() && t < |threads| && threads[t].Dialer?
      requires threads[t].d.DCas? || threads[t].d.DRequeue? || threads[t].d.DHold?
      ensures threads[t].d.sock < |proxies| && Proven(proxies[threads[t].d.sock])
    {
      ValidIsReachable();
      assert Knows(Abs(), threads[t]);
    }

    /** Once something was validated the engine is never empty again. */
    lemma NotEmptyStays(was: State, ran: seq<Action>)
      requires Valid() && ran <= run && Reached(birth, ran, was) && !IsEmpty(was)
      ensures !IsEmpty(Abs())
    {
      assert Reachable(was) by {
        assert Tag(0);
      }
      RunSince(was, ran);
      EmptyMeansNothingValidated(was, run[|ran|..]);
    }

    /** popSockAndLockIt(): a proxy it returns was judged good in the call and is
        locked by this dialer; it fails for want of proxies iff nothing was ever validated. */
    method PopSockAndLockIt(t: nat, n: nat, m: nat, g: nat, poll: Poll) returns (popped: Popped, gets: nat)
      requires Valid() && t < |threads| && threads[t] == Dialer(n, m, g, DPop) && Shuffles(poll.shuffles)
      modifies this
      ensures Valid() && birth == old(birth) && old(run) < run && t < |threads|
      ensures popped.LockedOne? ==>
                threads[t] == Dialer(n, m, gets, DHold(popped.sock)) && GoodDuring(t, popped.sock, |old(run)|)
                && popped.sock < |proxies| && proxies[popped.sock].locked && Proven(proxies[popped.sock])
      ensures popped == NoneYet ==> threads[t] == Dialer(n, m, gets, DPop)
      ensures popped == PopFailed ==>
                threads[t] == Finished(DialFailed(if old(IsEmpty(Abs())) then NoProxies else Cancelled, m, gets))
      ensures old(IsEmpty(Abs())) ==> popped == PopFailed
      ensures popped == PopFailed && !old(IsEmpty(Abs())) ==> poll.cancelled
      ensures popped == StillLooking ==> !threads[t].Finished? && !AtHead(threads[t]) && AttemptsOf(threads[t]) == m
      ensures AloneKept()
    {
      ghost var was, ran := Abs(), run;
      gets := g;
      CounterInRange(t);
      if IsEmpty(Abs()) {
        Atomic(t, Says(true), Read, Finished(DialFailed(NoProxies, m, g)));
        return PopFailed, gets;
      }
      Atomic(t, Says(true), Read, GetAny(Dial(n, m, g), Loop));
      popped, gets := AskForProxy(t, n, m, g, poll);
      if popped.LockedOne? {
        WasJudged(t, popped.sock, was, ran);
      }
    }

    /** The call of GetAnySOCKS(), and what is done with its answer. */
    method AskForProxy(t: nat, n: nat, m: nat, g: nat, poll: Poll) returns (popped: Popped, gets: nat)
      requires Valid() && t < |threads| && threads[t] == GetAny(Dial(n, m, g), Loop) && Shuffles(poll.shuffles)
      modifies this
      ensures Valid() && birth == old(birth) && old(run) <= run && t < |threads|
      ensures popped.LockedOne? ==>
                && threads[t] == Dialer(n, m, gets, DHold(popped.sock))
                && popped.sock < |proxies| && proxies[popped.sock].locked && Proven(proxies[popped.sock])
      ensures popped == NoneYet ==> threads[t] == Dialer(n, m, gets, DPop)
      ensures popped == PopFailed ==> threads[t] == Finished(DialFailed(Cancelled, m, gets)) && poll.cancelled
      ensures popped == StillLooking ==> threads[t] == GetAny(Dial(n, m, g), Loop)
      ensures AloneKept()
    {
      var done, found := GetAnySOCKS(t, Dial(n, m, g), poll.shuffles, poll.badPeek);
      if !done {
        return StillLooking, g;
      }
      gets := g + 1;
      popped := TakeGot(t, n, m, gets, found, poll.cancelled);
    }

    /** What popSockAndLockIt() does with the answer of GetAnySOCKS(). */
    method TakeGot(t: nat, n: nat, m: nat, g: nat, found: Option<nat>, cancelled: bool) returns (popped: Popped)
      requires Valid() && t < |threads| && threads[t] == Dialer(n, m, g, DGot(found))
      modifies this
      ensures Valid() && birth == old(birth) && old(run) < run && t < |threads|
      ensures popped.LockedOne? ==>
                threads[t] == Dialer(n, m, g, DHold(popped.sock)) && found == Some(popped.sock)
                && popped.sock < |proxies| && proxies[popped.sock].locked && Proven(proxies[popped.sock])
      ensures popped == NoneYet ==> threads[t] == Dialer(n, m, g, DPop)
      ensures popped == PopFailed ==> threads[t] == Finished(DialFailed(Cancelled, m, g))
      ensures (popped == PopFailed <==> cancelled) && popped != StillLooking
      ensures AloneKept()
      ensures old(schedule) == [] && cancelled ==> valids == old(valids) && proxies == old(proxies)
    {
      CounterInRange(t);
      if cancelled {
        Atomic(t, Says(true), Read, Finished(DialFailed(Cancelled, m, g)));
        return PopFailed;
      }
      if found == None {
        Atomic(t, Says(false), Read, Dialer(n, m, g, DPop));
        return NoneYet;
      }
      Atomic(t, Says(false), Read, Dialer(n, m, g, DCas(found.value)));
      ghost var requeued;
      popped, requeued := LockOrRequeue(t, n, m, g, found.value);
    }

    /** The dialer's compare-and-swap: it locks the proxy it finds free, and puts
        one that somebody else has locked at the back of the list of its protocol. */
    method LockOrRequeue(t: nat, n: nat, m: nat, g: nat, sock: nat) returns (popped: Popped, ghost requeued: Deed)
      requires Valid() && t < |threads| && threads[t] == Dialer(n, m, g, DCas(sock))
      modifies this
      ensures Valid() && birth == old(birth) && old(run) < run && t < |threads| && sock < |old(proxies)|
      ensures popped == if old(proxies)[sock].locked then NoneYet else LockedOne(sock)
      ensures popped == NoneYet ==>
                && threads[t] == Dialer(n, m, g, DPop) && Did(requeued, t, |old(run)|)
                && sock < |requeued.before.proxies| && requeued.before.proxies[sock].Protocol() != ProtoNull
                && requeued.after.valids
                   == Listed(requeued.before.valids, requeued.before.proxies[sock].Protocol(), sock)
      ensures popped == LockedOne(sock) ==>
                threads[t] == Dialer(n, m, g, DHold(sock))
                && sock < |proxies| && proxies[sock].locked && Proven(proxies[sock])
      ensures AloneKept()
      ensures old(schedule) == [] ==>
                if popped == NoneYet
                then proxies == old(proxies) && proxies[sock].Protocol() != ProtoNull
                     && valids == Listed(old(valids), proxies[sock].Protocol(), sock)
                else valids == old(valids) && proxies == old(proxies)[sock := old(proxies)[sock].(locked := true)]
    {
      requeued := Deed(0, Abs(), Abs());
      CounterInRange(t);
      if !proxies[sock].locked {
        Atomic(t, Says(true), Write(sock, proxies[sock].(locked := true)), Dialer(n, m, g, DHold(sock)));
        DialerHasProven(t);
        return LockedOne(sock), requeued;
      }
      Atomic(t, Says(true), Read, Dialer(n, m, g, DRequeue(sock)));
      requeued := PutBack(t, n, m, g, sock);
      return NoneYet, requeued;
    }

    /** The requeue, which finds a protocol: what GetAnySOCKS returns is proven. */
    method PutBack(t: nat, n: nat, m: nat, g: nat, sock: nat) returns (ghost requeued: Deed)
      requires Valid() && t < |threads| && threads[t] == Dialer(n, m, g, DRequeue(sock))
      modifies this
      ensures Valid() && birth == old(birth) && old(run) < run && t < |threads| && threads[t] == Dialer(n, m, g, DPop)
      ensures sock < |old(proxies)| && old(proxies)[sock].Protocol() != ProtoNull
      ensures Did(requeued, t, |old(run)|) && requeued.before == old(Abs())
      ensures requeued.after.valids == Listed(old(valids), old(proxies)[sock].Protocol(), sock)
      ensures AloneKept()
      ensures old(schedule) == [] ==>
                proxies == old(proxies) && valids == Listed(old(valids), old(proxies)[sock].Protocol(), sock)
    {
      DialerHasProven(t);
      CounterInRange(t);
      requeued := AtomicDeed(t, Says(true), Requeue(proxies[sock].Protocol(), sock), Dialer(n, m, g, DPop));
    }

    /** The inner loop: poll until a proxy is locked or there is an error. */
    method PollForProxy(t: nat, n: nat, m: nat, g: nat, polls: seq<Poll>) returns (popped: Popped, gets: nat)
      requires Valid() && t < |threads| && threads[t] == Dialer(n, m, g, DPop) && !IsEmpty(Abs())
      requires forall j :: 0 <= j < |polls| ==> Shuffles(polls[j].shuffles)
      modifies this
      ensures Valid() && birth == old(birth) && old(run) <= run && t < |threads|
      ensures popped.LockedOne? ==>
                threads[t] == Dialer(n, m, gets, DHold(popped.sock)) && GoodDuring(t, popped.sock, |old(run)|)
                && popped.sock < |proxies| && proxies[popped.sock].locked && Proven(proxies[popped.sock])
      ensures popped == PopFailed ==>
                && threads[t] == Finished(DialFailed(Cancelled, m, gets))
                && exists j :: 0 <= j < |polls| && polls[j].cancelled
      ensures popped == StillLooking ==> !threads[t].Finished? && !AtHead(threads[t]) && AttemptsOf(threads[t]) == m
      ensures popped != NoneYet
      ensures AloneKept()
    {
      ghost var was, ran := Abs(), run;
      var i := 0;
      gets := g;
      while i < |polls|
        invariant 0 <= i <= |polls|
        invariant Valid() && birth == old(birth) && old(run) <= run && t < |threads|
        invariant threads[t] == Dialer(n, m, gets, DPop) && AloneKept()
      {
        NotEmptyStays(was, ran);
        popped, gets := PopSockAndLockIt(t, n, m, gets, polls[i]);
        if popped != NoneYet {
          if popped.LockedOne? {
            WasJudged(t, popped.sock, was, ran);
          }
          return;
        }
        i := i + 1;
      }
      return StillLooking, gets;
    }

    /** From a locked proxy to the dial: middleware, unlock, and only then the dial. */
    method TryDial(t: nat, n: nat, m: nat, g: nat, sock: nat, approve: bool, dialOk: bool)
      returns (dialed: bool, ghost unlock: Deed, ghost dial: Deed)
      requires Valid() && t < |threads| && threads[t] == Dialer(n, m, g, DHold(sock))
      modifies this
      ensures Valid() && birth == old(birth) && old(run) < run && t < |threads|
      ensures dialed == approve
      ensures threads[t] == if !approve then Dialer(n, m, g, DHead)
                            else if dialOk then Finished(GotConn(sock, m + 1, g))
                            else Dialer(n + 1, m + 1, g, DHead)
      ensures Did(unlock, t, |old(run)|) && Unlocks(unlock, sock)
      ensures approve ==>
                && Did(dial, t, |old(run)|) && unlock.n < dial.n
                && t < |dial.before.threads| && dial.before.threads[t] == Dialer(n, m, g, DDial(sock))
      ensures AloneKept()
      ensures old(schedule) == [] ==>
                sock < |old(proxies)| && proxies == old(proxies)[sock := old(proxies)[sock].(locked := false)]
    {
      ghost var ran := run;
      CounterInRange(t);
      Atomic(t, Says(approve), Read, Dialer(n, m, g, DRelease(sock, approve)));
      ghost var run1 := run;
      unlock := LetGo(t, n, m, g, sock, approve);
      dial := unlock;
      ghost var run2 := run;
      if approve {
        dial := DialOut(t, n, m, g, sock, dialOk);
        DidStays(birth, run2, run, unlock, t, |run1|);
        DidSince(birth, run, dial, t, |ran|, |run2|);
      }
      DidSince(birth, run, unlock, t, |ran|, |run1|);
      return approve, unlock, dial;
    }

    /** The dialer's release of the lock, whatever the middleware has said. */
    method LetGo(t: nat, n: nat, m: nat, g: nat, sock: nat, approved: bool) returns (ghost unlock: Deed)
      requires Valid() && t < |threads| && threads[t] == Dialer(n, m, g, DRelease(sock, approved))
      modifies this
      ensures Valid() && birth == old(birth) && old(run) < run && t < |threads|
      ensures threads[t] == Dialer(n, m, g, if approved then DDial(sock) else DHead)
      ensures Did(unlock, t, |old(run)|) && unlock.n < |run| && Unlocks(unlock, sock)
      ensures AloneKept()
      ensures old(schedule) == [] ==>
                sock < |old(proxies)| && proxies == old(proxies)[sock := old(proxies)[sock].(locked := false)]
    {
      CounterInRange(t);
      LockedInHand(t, sock);
      unlock := AtomicDeed(t, Says(true), Write(sock, proxies[sock].(locked := false)),
                           Dialer(n, m, g, if approved then DDial(sock) else DHead));
    }

    /** The dial through the proxy. */
    method DialOut(t: nat, n: nat, m: nat, g: nat, sock: nat, dialOk: bool) returns (ghost dial: Deed)
      requires Valid() && t < |threads| && threads[t] == Dialer(n, m, g, DDial(sock))
      modifies this
      ensures Valid() && birth == old(birth) && old(run) < run && t < |threads|
      ensures threads[t] == if dialOk then Finished(GotConn(sock, m + 1, g)) else Dialer(n + 1, m + 1, g, DHead)
      ensures Did(dial, t, |old(run)|) && dial.n == |old(run)| && dial.before == old(Abs())
      ensures AloneKept()
      ensures old(schedule) == [] ==> proxies == old(proxies)
    {
      CounterInRange(t);
      dial := AtomicDeed(t, Says(dialOk), Read,
                         if dialOk then Finished(GotConn(sock, m + 1, g)) else Dialer(n + 1, m + 1, g, DHead));
    }

    lemma LockedInHand(t: nat, sock: nat)
      requires Valid() && t < |threads| && threads[t].Dialer? && threads[t].d.DRelease? && threads[t].d.sock == sock
      ensures sock < |proxies| && proxies[sock].locked
    {
      ValidIsReachable();
      assert Knows(Abs(), threads[t]);
    }

    /** One turn of the dialer's loop below the tests at its head. */
    method DialTurn(t: nat, n: nat, g: nat, turn: Turn) returns (ended: TurnEnd, gets: nat)
      requires Valid() && t < |threads| && threads[t] == Dialer(n, n, g, DPop) && !IsEmpty(Abs())
      requires forall j :: 0 <= j < |turn.polls| ==> Shuffles(turn.polls[j].shuffles)
      modifies this
      ensures Valid() && birth == old(birth) && old(run) <= run && t < |threads|
      ensures ended == Skipped ==> threads[t] == Dialer(n, n, gets, DHead)
      ensures ended == DialFailedOnce ==> threads[t] == Dialer(n + 1, n + 1, gets, DHead)
      ensures ended.Connected? ==> threads[t] == Finished(GotConn(ended.sock, n + 1, gets))
      ensures ended.Connected? ==> turn.approve && turn.dialOk
      ensures ended == DialFailedOnce ==> turn.approve && !turn.dialOk
      ensures ended == Skipped ==> !turn.approve
      ensures ended == Stopped ==> AttemptsOf(threads[t]) == n && !AtHead(threads[t])
      ensures ended == Stopped && threads[t].Finished? ==> threads[t] == Finished(DialFailed(Cancelled, n, gets))
      ensures AloneKept()
    {
      var popped: Popped;
      popped, gets := PollForProxy(t, n, n, g, turn.polls);
      if !popped.LockedOne? {
        return Stopped, gets;
      }
      var dialed;
      ghost var unlock, dial;
      dialed, unlock, dial := TryDial(t, n, n, gets, popped.sock, turn.approve, turn.dialOk);
      if !dialed {
        return Skipped, gets;
      }
      return if turn.dialOk then Connected(popped.sock) else DialFailedOnce, gets;
    }

    /** The tests at the head of the loop: failed dials against the bailout read now, then every way to be stopped. */
    method HeadTests(t: nat, n: nat, g: nat, halt: bool) returns (goOn: bool)
      requires Valid() && t < |threads| && threads[t] == Dialer(n, n, g, DHead)
      modifies this
      ensures Valid() && birth == old(birth) && old(run) < run && t < |threads|
      ensures goOn == (n <= old(opt.bailout) && !old(closed) && !halt)
      ensures threads[t] == if goOn then Dialer(n, n, g, DPop)
                            else Finished(DialFailed(if n > old(opt.bailout) then GaveUp else Cancelled, n, g))
      ensures AloneKept()
    {
      var maxBail := opt.bailout;
      CounterInRange(t);
      if n > maxBail {
        Atomic(t, Says(halt), Read, Finished(DialFailed(GaveUp, n, g)));
        return false;
      }
      if closed || halt {
        Atomic(t, Says(halt), Read, Finished(DialFailed(Cancelled, n, g)));
        return false;
      }
      Atomic(t, Says(halt), Read, Dialer(n, n, g, DPop));
      return true;
    }

    /** One turn of the dialer's loop, with the bailout it read at its head. */
    method OneTurn(t: nat, n: nat, g: nat, turn: Turn) returns (ended: TurnEnd, gets: nat, ghost head: Look)
      requires Valid() && t < |threads| && threads[t] == Dialer(n, n, g, DHead) && !IsEmpty(Abs())
      requires forall j :: 0 <= j < |turn.polls| ==> Shuffles(turn.polls[j].shuffles)
      modifies this
      ensures Valid() && birth == old(birth) && old(run) < run && t < |threads|
      ensures head == Look(|old(run)|, old(Abs())) && Seen(head, |old(run)|)
      ensures ended != Stopped ==> n <= old(opt.bailout)
      ensures ended == Skipped ==> threads[t] == Dialer(n, n, gets, DHead)
      ensures ended == DialFailedOnce ==> threads[t] == Dialer(n + 1, n + 1, gets, DHead)
      ensures ended.Connected? ==> threads[t] == Finished(GotConn(ended.sock, n + 1, gets))
      ensures ended.Connected? ==> turn.approve && turn.dialOk
      ensures ended == Stopped ==> AttemptsOf(threads[t]) == n && !AtHead(threads[t])
      ensures ended == Stopped && threads[t].Finished? ==>
                threads[t] == Finished(DialFailed(if n > old(opt.bailout) then GaveUp else Cancelled, n, gets))
      ensures AloneKept()
    {
      ghost var was, ran := Abs(), run;
      head := Look(|run|, Abs());
      SeenNow(head);
      var goOn := HeadTests(t, n, g, turn.halt);
      if !goOn {
        SeenStays(birth, ran, run, head, |ran|);
        return Stopped, g, head;
      }
      NotEmptyStays(was, ran);
      ended, gets := DialTurn(t, n, g, turn);
      SeenStays(birth, ran, run, head, |ran|);
    }

    /** mysteryDialer(), for as many turns as are given. It dials at most once
        more than a bailout it read at the head of a turn, gives up only with more
        failures than the last one it read, returns a connection only after a
        dial that succeeded through a proxy judged good in the call, and finds no
        proxies iff nothing was ever validated. */
    method MysteryDialer(t: nat, turns: seq<Turn>) returns (conn: Option<nat>, attempts: nat, ghost heads: seq<Look>)
      requires Valid() && t < |threads| && threads[t] == Dialer(0, 0, 0, DEnter) && TurnsOk(turns)
      modifies this
      ensures Valid() && birth == old(birth) && old(run) < run && t < |threads| && AttemptsOf(threads[t]) == attempts
      ensures AllSeen(birth, run, heads, |old(run)|) && WithinSome(attempts, heads)
      ensures conn.Some? ==> threads[t].Finished? && threads[t].out.GotConn? && threads[t].out.sock == conn.value
      ensures conn.Some? ==> attempts > 0 && GoodDuring(t, conn.value, |old(run)|)
      ensures conn.Some? ==> exists i :: 0 <= i < |turns| && turns[i].approve && turns[i].dialOk
      ensures conn == None && threads[t].Finished? ==>
                && threads[t].out.DialFailed? && (threads[t].out.why == NoProxies <==> old(IsEmpty(Abs())))
                && (threads[t].out.why == GaveUp ==> |heads| > 0 && attempts > heads[|heads| - 1].at.opt.bailout)
      ensures old(IsEmpty(Abs())) ==> conn == None && attempts == 0 && threads[t].Finished?
      ensures old(schedule) == [] ==>
                && (if old(opt.bailout) < 0 then attempts == 0 else attempts <= old(opt.bailout) + 1)
                && (conn == None && threads[t].Finished? && threads[t].out.why == GaveUp ==>
                      attempts == if old(opt.bailout) < 0 then 0 else old(opt.bailout) + 1)
      ensures AtHead(threads[t]) ==> |heads| == |turns|
    {
      ghost var was, ran := Abs(), run;
      attempts, heads, conn := 0, [], None;
      CounterInRange(t);
      if IsEmpty(Abs()) {
        Atomic(t, Says(true), Read, Finished(DialFailed(NoProxies, 0, 0)));
        return;
      }
      Atomic(t, Says(true), Read, Dialer(0, 0, 0, DHead));
      ghost var ran1 := run;
      NotEmptyStays(was, ran);
      conn, attempts, heads := DialLoop(t, turns);
      AllSeenSince(birth, run, heads, |ran|, |ran1|);
      if conn.Some? {
        WasJudged(t, conn.value, was, ran);
      }
    }

    /** The outer loop. */
    method DialLoop(t: nat, turns: seq<Turn>) returns (conn: Option<nat>, attempts: nat, ghost heads: seq<Look>)
      requires Valid() && t < |threads| && threads[t] == Dialer(0, 0, 0, DHead) && TurnsOk(turns) && !IsEmpty(Abs())
      modifies this
      ensures Valid() && birth == old(birth) && old(run) <= run && t < |threads| && AttemptsOf(threads[t]) == attempts
      ensures AllSeen(birth, run, heads, |old(run)|) && WithinSome(attempts, heads)
      ensures conn.Some? ==> attempts > 0 && threads[t].Finished? && threads[t].out.GotConn?
      ensures conn.Some? ==> threads[t].out.sock == conn.value
      ensures conn.Some? ==> exists i :: 0 <= i < |turns| && turns[i].approve && turns[i].dialOk
      ensures conn == None && threads[t].Finished? ==>
                && threads[t].out.DialFailed? && threads[t].out.why != NoProxies
                && (threads[t].out.why == GaveUp ==> |heads| > 0 && attempts > heads[|heads| - 1].at.opt.bailout)
      ensures old(schedule) == [] ==>
                && attempts <= Max0(old(opt.bailout))
                && (conn == None && threads[t].Finished? && threads[t].out.why == GaveUp ==>
                      attempts == Max0(old(opt.bailout)))
      ensures AtHead(threads[t]) ==> |heads| == |turns|
    {
      ghost var was, ran := Abs(), run;
      attempts, heads, conn := 0, [], None;
      var gets := 0;
      var i := 0;
      while i < |turns|
        invariant 0 <= i <= |turns| && conn == None && |heads| == i
        invariant Valid() && birth == old(birth) && old(run) <= run && t < |threads|
        invariant threads[t] == Dialer(attempts, attempts, gets, DHead)
        invariant AllSeen(birth, run, heads, |ran|) && WithinSome(attempts, heads) && AloneKept()
        invariant old(schedule) == [] ==> attempts <= Max0(old(opt.bailout))
      {
        ghost var run1, before := run, heads;
        NotEmptyStays(was, ran);
        var ended: TurnEnd;
        ghost var head;
        ended, gets, head := OneTurn(t, attempts, gets, turns[i]);
        AllSeenMore(birth, run1, run, before, head, |ran|);
        heads := before + [head];
        WithinMore(attempts, before, head);
        match ended {
          case Stopped => return;
          case Skipped =>
          case DialFailedOnce => attempts := attempts + 1;
          case Connected(sock) => return Some(sock), attempts + 1, heads;
        }
        i := i + 1;
      }
    }
  }

  lemma AllSeenSince(birth: nat, run: seq<Action>, ls: seq<Look>, from: nat, later: nat)
    requires AllSeen(birth, run, ls, later) && from <= later
    ensures AllSeen(birth, run, ls, from)
  {
  }

  /** Between two turns of the dialer's loop. */
  predicate AtHead(pc: PC) {
    pc.Dialer? && pc.d.DHead?
  }

  ghost predicate AllSeen(birth: nat, run: seq<Action>, ls: seq<Look>, from: nat) {
    forall i :: 0 <= i < |ls| ==> SeenIn(birth, run, ls[i], from)
  }

  lemma AllSeenStays(birth: nat, run: seq<Action>, run': seq<Action>, ls: seq<Look>, from: nat)
    requires AllSeen(birth, run, ls, from) && run <= run'
    ensures AllSeen(birth, run', ls, from)
  {
    forall i | 0 <= i < |ls| ensures SeenIn(birth, run', ls[i], from) {
      SeenStays(birth, run, run', ls[i], from);
    }
  }

  lemma AllSeenMore(birth: nat, run: seq<Action>, run': seq<Action>, ls: seq<Look>, l: Look, from: nat)
    requires AllSeen(birth, run, ls, from) && run <= run' && from <= |run| && SeenIn(birth, run', l, |run|)
    ensures AllSeen(birth, run', ls + [l], from)
  {
    AllSeenStays(birth, run, run', ls, from);
  }

  /** No dial was made, or so many that some bailout read allows one less. */
  predicate WithinSome(attempts: nat, heads: seq<Look>) {
    attempts == 0 || exists i :: 0 <= i < |heads| && attempts - 1 <= heads[i].at.opt.bailout
  }

  lemma WithinMore(attempts: nat, heads: seq<Look>, head: Look)
    requires WithinSome(attempts, heads)
    ensures WithinSome(attempts, heads + [head])
    ensures attempts <= head.at.opt.bailout ==> WithinSome(attempts + 1, heads + [head])
  {
    var all := heads + [head];
    assert all[|heads|] == head;
    if attempts > 0 {
      var i :| 0 <= i < |heads| && attempts - 1 <= heads[i].at.opt.bailout;
      assert all[i] == heads[i];
    }
  }

  lemma EvolvesItself(s: State)
    ensures Later(s, s)
  {
  }

  lemma OpKeepsTime(s: State, op: Op)
    requires OpOk(s, op)
    ensures Machine.Perform(s, op).now == s.now && (s.closed ==> Machine.Perform(s, op).closed)
  {
  }

  lemma DueIsNext(s: State, t: nat, o: Oracle, op: Op, pc: PC)
    requires WellFormed(s) && Enabled(s, Step(t, o)) && ThreadEffect(s, s.threads[t], o) == Do(op, pc)
    ensures OpOk(s, op) && Next(s, Step(t, o)) == Machine.Perform(s, op).(threads := s.threads[t := pc])
  {
    EffectPcOk(s, t, o);
    assert s.threads[t := pc] + Born(None) == s.threads[t := pc];
  }

  /** What validate() may have done to its record, by verdict. */
  predicate Explains(verdict: Verdict, entry: Proxy, left: Proxy, order: seq<Protocol>, net: Network) {
    match verdict
    case Refused => true
    case Limited => left == entry.(locked := true)
    case CutShort => SameTally(entry, left)
    case Good => Passes(entry, order, net) && left == Concluded(entry, order, net, left.lastValidated)
    case Bad => !Passes(entry, order, net) && left == Concluded(entry, order, net, left.lastValidated)
  }

  lemma SocksFront(proto: Protocol, rest: seq<Protocol>)
    ensures SocksOnly([proto] + rest) <==> proto in TRIED && SocksOnly(rest)
    ensures ([proto] + rest)[0] == proto && ([proto] + rest)[1..] == rest
  {
    var all := [proto] + rest;
    if SocksOnly(all) {
      assert all[0] in TRIED;
      forall i | 0 <= i < |rest| ensures rest[i] in TRIED {
        assert all[i + 1] in TRIED;
      }
    }
  }

  /** What stillGood() would say of a proxy now, with nobody else about. */
  predicate Acceptable(s: State, p: nat, badPeek: bool) {
    && p < |s.proxies| && !s.proxies[p].locked && !badPeek
    && (!s.opt.recycle || s.opt.removeAfter == -1 || s.proxies[p].timesBad <= s.opt.removeAfter)
    && s.now - s.proxies[p].lastValidated <= s.opt.stale
  }

  predicate NoRepeat(order: seq<Protocol>) {
    forall i, j :: 0 <= i < j < |order| ==> order[i] != order[j]
  }

  /** None of these lists has an acceptable proxy in front. */
  ghost predicate NothingInFront(s: State, order: seq<Protocol>, badPeek: Protocol -> bool)
    requires SocksOnly(order)
  {
    forall i :: 0 <= i < |order| ==> FrontIf(s, s.valids.Get(order[i]), badPeek(order[i])) == None
  }

  /** The engine as n lists of a pass have left it that found nothing. */
  ghost predicate Scanned(was: State, s: State, order: seq<Protocol>, n: nat, badPeek: Protocol -> bool)
    requires n <= |order|
  {
    SocksOnly(order) ==>
      && s.valids == Fruitless(was.valids, order[..n])
      && s.proxies == was.proxies && s.opt == was.opt && s.now == was.now
      && (NoRepeat(order) ==> NothingInFront(was, order[..n], badPeek))
  }

  lemma ScannedOneMore(was: State, s: State, s': State, order: seq<Protocol>, i: nat, badPeek: Protocol -> bool)
    requires i < |order| && order[i] != ProtoNull && Scanned(was, s, order, i, badPeek)
    requires s'.valids == s.valids.Set(order[i], Behind(s.valids.Get(order[i]), 1))
    requires s'.proxies == s.proxies && s'.opt == s.opt && s'.now == s.now
    requires FrontIf(s, s.valids.Get(order[i]), badPeek(order[i])) == None
    ensures Scanned(was, s', order, i + 1, badPeek)
  {
    if SocksOnly(order) {
      assert order[..i + 1][..i] == order[..i] && order[..i + 1][i] == order[i];
      if NoRepeat(order) {
        NotYetVisited(was.valids, order, i);
        OneListMore(was, order, i, badPeek);
      }
    }
  }

  /** The list whose turn it is has not been touched in the pass so far. */
  lemma NotYetVisited(v: PerProto<seq<nat>>, order: seq<Protocol>, i: nat)
    requires i < |order| && SocksOnly(order) && NoRepeat(order)
    ensures Fruitless(v, order[..i]).Get(order[i]) == v.Get(order[i])
  {
    assert order[i] !in order[..i];
    assert multiset(order[..i])[order[i]] == 0;
    FruitlessDrops(v, order[..i], order[i]);
  }

  lemma OneListMore(s: State, order: seq<Protocol>, i: nat, badPeek: Protocol -> bool)
    requires i < |order| && SocksOnly(order) && NothingInFront(s, order[..i], badPeek)
    requires FrontIf(s, s.valids.Get(order[i]), badPeek(order[i])) == None
    ensures NothingInFront(s, order[..i + 1], badPeek)
  {
    forall j | 0 <= j <= i ensures FrontIf(s, s.valids.Get(order[j]), badPeek(order[j])) == None {
      if j < i {
        assert order[..i][j] == order[j];
      }
    }
  }

  lemma RepeatedCounts<T>(ids: seq<T>, i: nat, j: nat)
    requires i < j < |ids| && ids[i] == ids[j]
    ensures multiset(ids)[ids[i]] >= 2
  {
    assert ids == ids[..j] + [ids[j]] + ids[j + 1..];
    assert ids[i] in ids[..j];
  }

  /** An order of the three lists visits each once. */
  lemma ShuffleVisitsEach(order: seq<Protocol>)
    requires SocksOnly(order) && multiset(order) == multiset(TRIED)
    ensures NoRepeat(order) && forall k :: k in TRIED ==> k in order
  {
    forall i, j | 0 <= i < j < |order| ensures order[i] != order[j] {
      if order[i] == order[j] {
        RepeatedCounts(order, i, j);
      }
    }
    forall k | k in TRIED ensures k in order {
      assert k in multiset(TRIED) && k in multiset(order);
    }
  }

  /** No SOCKS list has an acceptable proxy in front. */
  ghost predicate NoneServable(s: State, badPeek: Protocol -> bool) {
    forall k :: k in TRIED ==> FrontIf(s, s.valids.Get(k), badPeek(k)) == None
  }

  lemma NothingServable(s: State, s': State, order: seq<Protocol>, badPeek: Protocol -> bool)
    requires SocksOnly(order) && (forall k :: k in TRIED ==> k in order) && NothingInFront(s', order, badPeek)
    requires s'.valids == s.valids && s'.proxies == s.proxies && s'.opt == s.opt && s'.now == s.now
    ensures NoneServable(s, badPeek)
  {
    forall k | k in TRIED ensures FrontIf(s, s.valids.Get(k), badPeek(k)) == None {
      var i :| 0 <= i < |order| && order[i] == k;
      assert FrontIf(s', s'.valids.Get(order[i]), badPeek(order[i])) == None;
    }
  }

  function FrontIf(s: State, list: seq<nat>, badPeek: bool): Option<nat> {
    if |list| > 0 && Acceptable(s, list[0], badPeek) then Some(list[0]) else None
  }

  /** A list without its first n entries. */
  function Behind<T>(list: seq<T>, n: nat): seq<T> {
    if n <= |list| then list[n..] else []
  }

  /** The lists after a pass in this order that found nothing. */
  function Fruitless(v: PerProto<seq<nat>>, order: seq<Protocol>): PerProto<seq<nat>>
    requires SocksOnly(order)
  {
    if order == [] then v
    else
      var k := order[|order| - 1];
      var before := Fruitless(v, order[..|order| - 1]);
      before.Set(k, Behind(before.Get(k), 1))
  }

  lemma BehindMore<T>(list: seq<T>, n: nat, m: nat)
    ensures Behind(Behind(list, n), m) == Behind(list, n + m)
  {
  }

  /** Every list has lost as many of its first entries as it was visited. */
  lemma {:induction false} FruitlessDrops(v: PerProto<seq<nat>>, order: seq<Protocol>, k: Protocol)
    requires SocksOnly(order) && k != ProtoNull
    ensures Fruitless(v, order).Get(k) == Behind(v.Get(k), multiset(order)[k])
    decreases |order|
  {
    if order != [] {
      var n := |order| - 1;
      FruitlessDrops(v, order[..n], k);
      CountLast(order, k);
      BehindMore(v.Get(k), multiset(order[..n])[k], 1);
    }
  }

  lemma CountLast(order: seq<Protocol>, k: Protocol)
    requires order != []
    ensures multiset(order)[k] == multiset(order[..|order| - 1])[k] + (if order[|order| - 1] == k then 1 else 0)
  {
    assert order == order[..|order| - 1] + [order[|order| - 1]];
  }

  /** Without their first n entries, the lists that are scanned. */
  ghost predicate AllBehind(v: PerProto<seq<nat>>, v': PerProto<seq<nat>>, n: nat) {
    forall k :: k in TRIED ==> v'.Get(k) == Behind(v.Get(k), n)
  }

  lemma NothingBehind(v: PerProto<seq<nat>>)
    ensures AllBehind(v, v, 0)
  {
  }

  lemma AllBehindMore(v: PerProto<seq<nat>>, v1: PerProto<seq<nat>>, v2: PerProto<seq<nat>>, n: nat)
    requires AllBehind(v, v1, n) && AllBehind(v1, v2, 1)
    ensures AllBehind(v, v2, n + 1)
  {
    forall k | k in TRIED ensures v2.Get(k) == Behind(v.Get(k), n + 1) {
      BehindMore(v.Get(k), n, 1);
    }
  }

  lemma FruitlessPass(v: PerProto<seq<nat>>, v1: PerProto<seq<nat>>, order: seq<Protocol>, n: nat)
    requires SocksOnly(order) && multiset(order) == multiset(TRIED) && AllBehind(v, v1, n)
    ensures AllBehind(v, Fruitless(v1, order), n + 1)
  {
    forall k | k in TRIED ensures Fruitless(v1, order).Get(k) == Behind(v.Get(k), n + 1) {
      FruitlessDrops(v1, order, k);
      BehindMore(v.Get(k), n, 1);
    }
  }

  /** Where a caller goes on after stillGood() accepted a proxy. */
  function Kept(c: Caller, sock: nat): PC {
    match c
    case Str(proto) => GetStr(proto, StrExit(sock))
    case _ => GetAny(c, Exit(Some(sock)))
  }

  /** Where GetAnySOCKS returns to. */
  function Back(c: Caller, found: Option<nat>): PC {
    match c
    case Dial(count, attempts, gets) => Dialer(count, attempts, gets + 1, DGot(found))
    case _ => Finished(GotProxy(found))
  }

  /** The record an operation leaves at p. */
  lemma KeptRecord(s: State, op: Op, p: nat)
    requires OpOk(s, op) && p < |s.proxies|
    ensures p < |Perform(s, op).proxies|
    ensures Perform(s, op).proxies[p] == if op.Write? && op.sock == p then op.rec else s.proxies[p]
  {
  }

  function Choice(proto: Protocol): Oracle {
    Oracle(true, false, "", proto, [], [])
  }

  /** Each an order of the three SOCKS lists. */
  predicate Shuffles(orders: seq<seq<Protocol>>) {
    forall i :: 0 <= i < |orders| ==> SocksOnly(orders[i]) && multiset(orders[i]) == multiset(TRIED)
  }

  /** What the outside answers to one call of popSockAndLockIt: the passes of
      GetAnySOCKS, the limiter, and whether the dial's context is done by then. */
  datatype Poll = Poll(shuffles: seq<seq<Protocol>>, badPeek: nat -> Protocol -> bool, cancelled: bool)

  /** And to one turn of the dialer's loop: a context, timeout or killer that
      fires, the polls until a proxy is locked, the middleware, the dial. */
  datatype Turn = Turn(halt: bool, polls: seq<Poll>, approve: bool, dialOk: bool)

  predicate TurnsOk(turns: seq<Turn>) {
    forall i, j :: 0 <= i < |turns| && 0 <= j < |turns[i].polls| ==> Shuffles(turns[i].polls[j].shuffles)
  }

  /** How a turn ended: no proxy to be had, the middleware said no, the dial failed, or a connection. */
  datatype TurnEnd = Stopped | Skipped | DialFailedOnce | Connected(sock: nat)

  /** A turn of getSocksStr: an endpoint, another turn, or a nil dereference. */
  datatype StrReply = Endpoint(sock: nat, endpoint: string) | StillWaiting | Crashed

  /** The engine after n turns of a getSocksStr call by itself that brought nothing. */
  predicate TurnsWasted(was: State, s: State, proto: Protocol, n: nat, badPeek: seq<bool>)
    requires proto != ProtoNull && n <= |badPeek|
  {
    if n == 0 then s == was
    else
      && s.valids.Get(proto) == Behind(was.valids.Get(proto), n)
      && FrontIf(was, was.valids.Get(proto), badPeek[0]) == None
  }

  /** Where a turn leaves its caller. */
  function Replied(proto: Protocol, reply: StrReply): PC {
    match reply
    case Endpoint(sock, endpoint) => Finished(GotEndpoint(proto, sock, endpoint))
    case StillWaiting => GetStr(proto, StrLoop)
    case Crashed => Finished(Drained(proto))
  }

  datatype Popped = LockedOne(sock: nat) | NoneYet | PopFailed | StillLooking

  function Shuffled(order: seq<Protocol>): Oracle {
    Oracle(true, false, "", ProtoNull, order, [])
  }

  function Limiters(use: bool, bad: bool): Oracle {
    Oracle(use, bad, "", ProtoNull, [], [])
  }

  /** The protocols still to be tried before index i. */
  function Left(order: seq<Protocol>, i: nat): set<Protocol>
    requires i <= |order|
  {
    set j | i <= j < |order| :: order[j]
  }

  lemma WalkLeft(order: seq<Protocol>, i: nat)
    requires Walk(order) && i <= 3
    ensures i == 0 ==> Left(order, i) == TRIED
    ensures i < 3 ==> order[i] in Left(order, i) && Left(order, i + 1) == Left(order, i) - {order[i]}
    ensures i == 3 ==> Left(order, i) == {}
  {
    assert order[0] in TRIED && order[1] in TRIED && order[2] in TRIED;
    assert ProtoSOCKS4 in order && ProtoSOCKS4a in order && ProtoSOCKS5 in order;
    assert order == [order[0], order[1], order[2]];
  }

  lemma {:induction false} TriedKeepsTally(r: Proxy, order: seq<Protocol>, net: Network)
    ensures SameTally(r, Tried(r, order, net)) && Tried(r, order, net).locked == r.locked
    ensures Tried(r, order, net).endpoint == r.endpoint
    decreases |order|
  {
    if order != [] {
      TriedKeepsTally(r, order[..|order| - 1], net);
    }
  }

  function Says(yes: bool): Oracle {
    Oracle(yes, false, "", ProtoNull, [], [])
  }

  function Heard(answer: Option<string>): Oracle {
    Oracle(answer.Some?, false, if answer.Some? then answer.value else "", ProtoNull, [], [])
  }

  lemma OtherKeepsCounter(s: State, a: Action, t: nat)
    requires Inv(s) && Enabled(s, a) && t < |s.threads| && (a.Step? ==> a.t != t)
    ensures t < |Next(s, a).threads| && Next(s, a).threads[t] == s.threads[t]
  {
  }
}
