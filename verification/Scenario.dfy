/** States that do come up, each with a run that leads there: a proxy is loaded,
    selected, validated over any SOCKS protocol and put on that protocol's list,
    so what is said about listed proxies is said about something; callers crash
    on a list drained by others; and a proxy that never failed is expelled. */
module Scenario {
  import opened Proto
  import opened Machine
  import opened Facts
  import opened Runs
  import opened Dialing
  import opened Engine

  ghost predicate CanBe(s: State) {
    Reachable(s) && WellFormed(s)
  }

  /** Some run leads from s0, which can come up itself, to s. */
  ghost predicate LeadsTo(s0: State, s: State) {
    CanBe(s0) && WellFormed(s) && exists acts :: Legal(s0, acts) && s == Exec(s0, acts)
  }

  lemma LeadsToItself(s: State)
    requires CanBe(s)
    ensures LeadsTo(s, s)
  {
    assert Legal(s, []) && s == Exec(s, []);
  }

  lemma ReachedFrom(s0: State, s: State, acts: seq<Action>)
    requires LeadsTo(s0, s) && Legal(s, acts)
    ensures LeadsTo(s0, Exec(s, acts))
  {
    var before :| Legal(s0, before) && s == Exec(s0, before);
    RunsCompose(s0, before, acts);
    ReachableInv(s0);
    RunKeepsInv(s0, before + acts);
  }

  lemma WhatIsLedToCanBe(s0: State, s: State)
    requires LeadsTo(s0, s)
    ensures CanBe(s)
  {
    var now: nat, before :| WellFormed(Initial(now)) && Legal(Initial(now), before) && s0 == Exec(Initial(now), before);
    var acts :| Legal(s0, acts) && s == Exec(s0, acts);
    RunsCompose(Initial(now), before, acts);
  }

  function Moved(s: State, t: nat, op: Op, pc: PC): State
    requires t < |s.threads| && OpOk(s, op)
  {
    Machine.Perform(s, op).(threads := s.threads[t := pc])
  }

  /** One step of thread t. */
  lemma Hop(s0: State, s: State, t: nat, o: Oracle, op: Op, pc: PC)
    requires LeadsTo(s0, s) && Enabled(s, Step(t, o)) && ThreadEffect(s, s.threads[t], o) == Do(op, pc)
    ensures OpOk(s, op) && LeadsTo(s0, Moved(s, t, op, pc))
  {
    DueIsNext(s, t, o, op, pc);
    OneStep(s, Step(t, o));
    ReachedFrom(s0, s, [Step(t, o)]);
  }

  lemma CallHop(s0: State, s: State, pc: PC)
    requires LeadsTo(s0, s) && Entry(pc)
    ensures LeadsTo(s0, s.(threads := s.threads + [pc]))
  {
    OneStep(s, Call(pc));
    ReachedFrom(s0, s, [Call(pc)]);
  }

  // ---------------------------------------------------------------- loading and selecting

  /** A proxy never heard of is loaded. */
  lemma Loads(s0: State, s: State, endpoint: string) returns (s': State)
    requires LeadsTo(s0, s) && endpoint !in s.plot
    ensures LeadsTo(s0, s') && s'.proxies == s.proxies + [NewProxy(endpoint)] && s'.pending == s.pending + [|s.proxies|]
    ensures s' == s.(proxies := s'.proxies, pending := s'.pending, plot := s'.plot, threads := s'.threads)
    ensures s'.plot == s.plot[endpoint := |s.proxies|]
  {
    var t := |s.threads|;
    var o := Says(true);
    CallHop(s0, s, Loader(endpoint, LSet));
    var s1 := s.(threads := s.threads + [Loader(endpoint, LSet)]);
    Hop(s0, s1, t, o, MapInsert(endpoint), Loader(endpoint, LGet));
    var s2 := Moved(s1, t, MapInsert(endpoint), Loader(endpoint, LGet));
    Hop(s0, s2, t, o, Read, Loader(endpoint, LAdd(|s.proxies|)));
    var s3 := Moved(s2, t, Read, Loader(endpoint, LAdd(|s.proxies|)));
    Hop(s0, s3, t, o, AddPending(|s.proxies|), Finished(Nothing));
    s' := Moved(s3, t, AddPending(|s.proxies|), Finished(Nothing));
  }

  /** The engine is started, and has a spawner. */
  lemma Starts(s0: State, s: State) returns (s': State, u: nat)
    requires LeadsTo(s0, s) && s.status != Running
    ensures LeadsTo(s0, s') && u < |s'.threads| && s'.threads[u] == Spawner(JCheck)
    ensures s' == s.(status := Running, threads := s'.threads)
  {
    var t := |s.threads|;
    var o := Says(true);
    CallHop(s0, s, Conductor(CLoad));
    var s1 := s.(threads := s.threads + [Conductor(CLoad)]);
    Hop(s0, s1, t, o, Read, Conductor(CSpawn));
    var s2 := Moved(s1, t, Read, Conductor(CSpawn));
    OneStep(s2, Step(t, o));
    ReachedFrom(s0, s2, [Step(t, o)]);
    var s3 := s2.(threads := s2.threads[t := Conductor(CStore)] + [Spawner(JCheck)]);
    assert s3 == Next(s2, Step(t, o));
    Hop(s0, s3, t, o, SetStatus(Running), Finished(Nothing));
    s' := Moved(s3, t, SetStatus(Running), Finished(Nothing));
    u := t + 1;
  }

  /** The spawner submits the front of Pending. */
  lemma Selects(s0: State, s: State, u: nat) returns (s': State, v: nat)
    requires LeadsTo(s0, s) && s.status == Running && s.opt.recycle && |s.pending| > 0
    requires u < |s.threads| && s.threads[u] == Spawner(JCheck)
    ensures LeadsTo(s0, s') && v < |s'.threads| && s.pending[0] < |s.proxies|
    ensures s'.threads[v] == Validator(s.pending[0], s.proxies[s.pending[0]], Cas)
    ensures s' == s.(pending := s'.pending, threads := s'.threads)
  {
    var p := s.pending[0];
    var o := Says(true);
    Hop(s0, s, u, o, Read, Spawner(JRotate));
    var s1 := Moved(s, u, Read, Spawner(JRotate));
    Hop(s0, s1, u, o, Rotate, Spawner(JSubmit(Some(p))));
    var s2 := Moved(s1, u, Rotate, Spawner(JSubmit(Some(p))));
    Submits(s0, s2, u, p);
    s' := s2.(threads := s2.threads[u := Spawner(JCheck)] + [Validator(p, s.proxies[p], Cas)]);
    v := |s.threads|;
  }

  /** The pool takes the job. */
  lemma Submits(s0: State, s: State, u: nat, p: nat)
    requires LeadsTo(s0, s) && u < |s.threads| && s.threads[u] == Spawner(JSubmit(Some(p)))
    ensures p < |s.proxies|
    ensures LeadsTo(s0, s.(threads := s.threads[u := Spawner(JCheck)] + [Validator(p, s.proxies[p], Cas)]))
  {
    var o := Says(true);
    assert PcOk(s.threads[u], |s.proxies|);
    OneStep(s, Step(u, o));
    ReachedFrom(s0, s, [Step(u, o)]);
    assert Next(s, Step(u, o)) == s.(threads := s.threads[u := Spawner(JCheck)] + [Validator(p, s.proxies[p], Cas)]);
  }

  // ---------------------------------------------------------------- validating

  /** The record after a validator's step, and the validator. */
  function Done(s: State, v: nat, p: nat, r: Proxy, pc: PC): State
    requires v < |s.threads| && p < |s.proxies|
  {
    s.(proxies := s.proxies[p := r], threads := s.threads[v := pc])
  }

  /** The lock is taken, the engine is open and no limiter objects. */
  lemma Enters(s0: State, s: State, v: nat, p: nat, e: Proxy) returns (s': State)
    requires LeadsTo(s0, s) && v < |s.threads| && p < |s.proxies| && !s.closed
    requires s.threads[v] == Validator(p, e, Cas) && !s.proxies[p].locked && Fresh(s.proxies[p])
    ensures var r := s.proxies[p];
            LeadsTo(s0, s') && s' == Done(s, v, p, r.(locked := true), Validator(p, r, Try(TRIED, 0)))
  {
    var r := s.proxies[p];
    var o := Says(false);
    var locked := Write(p, r.(locked := true));
    Hop(s0, s, v, o, locked, Validator(p, r, Gate));
    var s1 := Moved(s, v, locked, Validator(p, r, Gate));
    Hop(s0, s1, v, o, Read, Validator(p, r, Limits));
    var s2 := Moved(s1, v, Read, Validator(p, r, Limits));
    Hop(s0, s2, v, o, Read, Validator(p, r, Try(TRIED, 0)));
    s' := Moved(s2, v, Read, Validator(p, r, Try(TRIED, 0)));
  }

  /** The network answers one check, and the check is counted. */
  lemma Checks(s0: State, s: State, v: nat, p: nat, e: Proxy, k: Protocol, todo: set<Protocol>, n: nat, yes: bool)
    returns (s': State)
    requires LeadsTo(s0, s) && v < |s.threads| && p < |s.proxies|
    requires s.threads[v] == Validator(p, e, Probe(k, todo, true, n))
    ensures LeadsTo(s0, s')
    ensures s' == Done(s, v, p, if yes then s.proxies[p].(proxiedIP := "") else s.proxies[p],
                       Validator(p, e, if yes then Fix(k, todo, n + 1) else Try(todo, n + 1))).(stats := s'.stats)
  {
    var op := if yes then Write(p, s.proxies[p].(proxiedIP := "")) else Read;
    Hop(s0, s, v, Says(yes), op, Validator(p, e, Count(k, todo, true, n, yes)));
    var s1 := Moved(s, v, op, Validator(p, e, Count(k, todo, true, n, yes)));
    var pc := Validator(p, e, if yes then Fix(k, todo, n + 1) else Try(todo, n + 1));
    Hop(s0, s1, v, Says(yes), CountCheck, pc);
    s' := Moved(s1, v, CountCheck, pc);
  }

  /** One protocol is tried. */
  lemma Tries(s0: State, s: State, v: nat, p: nat, e: Proxy, todo: set<Protocol>, n: nat, k: Protocol, yes: bool)
    returns (s': State)
    requires LeadsTo(s0, s) && v < |s.threads| && p < |s.proxies| && !s.closed
    requires s.threads[v] == Validator(p, e, Try(todo, n)) && k in todo
    ensures LeadsTo(s0, s')
    ensures s' == Done(s, v, p, if yes then s.proxies[p].(proxiedIP := "") else s.proxies[p],
                       Validator(p, e, if yes then Fix(k, todo - {k}, n + 1) else Try(todo - {k}, n + 1)))
                    .(stats := s'.stats)
  {
    Hop(s0, s, v, Choice(k), Read, Validator(p, e, Probe(k, todo - {k}, true, n)));
    var s1 := Moved(s, v, Read, Validator(p, e, Probe(k, todo - {k}, true, n)));
    s' := Checks(s0, s1, v, p, e, k, todo - {k}, n, yes);
  }

  /** The protocol is fixed. */
  lemma Fixes(s0: State, s: State, v: nat, p: nat, e: Proxy, todo: set<Protocol>, n: nat, k: Protocol)
    returns (s': State)
    requires LeadsTo(s0, s) && v < |s.threads| && p < |s.proxies|
    requires s.threads[v] == Validator(p, e, Fix(k, todo, n))
    ensures var r := s.proxies[p];
            LeadsTo(s0, s') && s' == Done(s, v, p, r.(cell := r.cell.Set(k)), Validator(p, e, Try(todo, n)))
  {
    var r := s.proxies[p].(cell := s.proxies[p].cell.Set(k));
    Hop(s0, s, v, Says(true), Write(p, r), Validator(p, e, Try(todo, n)));
    s' := Moved(s, v, Write(p, r), Validator(p, e, Try(todo, n)));
  }

  /** The verdict is good. */
  lemma Judges(s0: State, s: State, v: nat, p: nat, e: Proxy, n: nat, k: Protocol) returns (s': State)
    requires LeadsTo(s0, s) && v < |s.threads| && p < |s.proxies|
    requires s.threads[v] == Validator(p, e, Try({}, n)) && s.proxies[p].Protocol() == k != ProtoNull
    ensures LeadsTo(s0, s')
    ensures var r := s.proxies[p];
            s' == Done(s, v, p, r.(timesValidated := r.timesValidated + 1), Validator(p, e, Stamp(k)))
  {
    var o := Says(true);
    var r := s.proxies[p].(timesValidated := s.proxies[p].timesValidated + 1);
    Hop(s0, s, v, o, Read, Validator(p, e, Judge(n)));
    var s1 := Moved(s, v, Read, Validator(p, e, Judge(n)));
    Hop(s0, s1, v, o, Read, Validator(p, e, MarkGood(k, n)));
    var s2 := Moved(s1, v, Read, Validator(p, e, MarkGood(k, n)));
    Hop(s0, s2, v, o, Write(p, r), Validator(p, e, Stamp(k)));
    s' := Moved(s2, v, Write(p, r), Validator(p, e, Stamp(k)));
  }

  /** A validation that succeeds changes no name, no count of failures, no map entry and no setting. */
  predicate SameNames(s: State, s': State) {
    && |s'.proxies| == |s.proxies| && s'.plot == s.plot && s'.opt == s.opt
    && forall p :: 0 <= p < |s.proxies| ==>
         s'.proxies[p].endpoint == s.proxies[p].endpoint && s'.proxies[p].timesBad == s.proxies[p].timesBad
  }

  /** The stamp, and the counter. */
  lemma Tallies(s0: State, s: State, v: nat, p: nat, e: Proxy, k: Protocol) returns (s': State)
    requires LeadsTo(s0, s) && v < |s.threads| && p < |s.proxies|
    requires s.threads[v] == Validator(p, e, Stamp(k)) && s.proxies[p].Protocol() == k != ProtoNull
    ensures LeadsTo(s0, s') && s'.valids == s.valids && s'.closed == s.closed && SameNames(s, s')
    ensures v < |s'.threads| && s'.threads[v] == Validator(p, e, Push(k))
  {
    var o := Says(true);
    var r := s.proxies[p].(lastValidated := s.now);
    Hop(s0, s, v, o, Write(p, r), Validator(p, e, Tally(k)));
    var s1 := Moved(s, v, Write(p, r), Validator(p, e, Tally(k)));
    Hop(s0, s1, v, o, CountValid(k), Validator(p, e, Push(k)));
    s' := Moved(s1, v, CountValid(k), Validator(p, e, Push(k)));
  }

  /** The proxy goes on its list. */
  lemma Lists(s0: State, s: State, v: nat, p: nat, e: Proxy, k: Protocol) returns (s': State)
    requires LeadsTo(s0, s) && v < |s.threads| && p < |s.proxies| && k != ProtoNull
    requires s.threads[v] == Validator(p, e, Push(k))
    ensures LeadsTo(s0, s') && s'.valids == s.valids.Set(k, s.valids.Get(k) + [p]) && s'.closed == s.closed
    ensures SameNames(s, s') && !s'.proxies[p].locked
  {
    Hop(s0, s, v, Says(true), PushValid(k, p), Validator(p, e, Release(Good)));
    s' := Releases(s0, Moved(s, v, PushValid(k, p), Validator(p, e, Release(Good))), v, p, e);
  }

  lemma Releases(s0: State, s: State, v: nat, p: nat, e: Proxy) returns (s': State)
    requires LeadsTo(s0, s) && v < |s.threads| && p < |s.proxies| && s.threads[v] == Validator(p, e, Release(Good))
    ensures LeadsTo(s0, s')
    ensures s' == Done(s, v, p, s.proxies[p].(locked := false), Finished(Validated(Good)))
  {
    var free := Write(p, s.proxies[p].(locked := false));
    Hop(s0, s, v, Says(true), free, Finished(Validated(Good)));
    s' := Moved(s, v, free, Finished(Validated(Good)));
  }

  /** The two other protocols are tried and fail. */
  lemma TwoFail(s0: State, s: State, v: nat, p: nat, e: Proxy, k: Protocol) returns (s': State)
    requires LeadsTo(s0, s) && v < |s.threads| && p < |s.proxies| && !s.closed && k in TRIED
    requires s.threads[v] == Validator(p, e, Try(TRIED - {k}, 1))
    ensures LeadsTo(s0, s')
    ensures s' == Done(s, v, p, s.proxies[p], Validator(p, e, Try({}, 3))).(stats := s'.stats)
  {
    var rest := TRIED - {k};
    var a :| a in rest;
    var s1 := Tries(s0, s, v, p, e, rest, 1, a, false);
    var b :| b in rest - {a};
    s' := Tries(s0, s1, v, p, e, rest - {a}, 2, b, false);
    assert rest - {a} - {b} == {};
  }

  /** A proxy that works over protocol k only is listed as that. */
  lemma Passes(s0: State, s: State, v: nat, p: nat, e: Proxy, k: Protocol) returns (s': State)
    requires LeadsTo(s0, s) && v < |s.threads| && p < |s.proxies| && !s.closed && k in TRIED
    requires s.threads[v] == Validator(p, e, Cas)
    requires !s.proxies[p].locked && Fresh(s.proxies[p]) && !s.proxies[p].cell.fired
    ensures LeadsTo(s0, s') && s'.valids == s.valids.Set(k, s.valids.Get(k) + [p]) && s'.closed == s.closed
    ensures SameNames(s, s') && !s'.proxies[p].locked
  {
    var r := s.proxies[p];
    var s1 := Enters(s0, s, v, p, e);
    var s2 := Tries(s0, s1, v, p, r, TRIED, 0, k, true);
    var s3 := Fixes(s0, s2, v, p, r, TRIED - {k}, 1, k);
    s' := Finishes(s0, s3, v, p, r, k);
  }

  /** From the one success to the list. */
  lemma Finishes(s0: State, s: State, v: nat, p: nat, e: Proxy, k: Protocol) returns (s': State)
    requires LeadsTo(s0, s) && v < |s.threads| && p < |s.proxies| && !s.closed && k in TRIED
    requires s.threads[v] == Validator(p, e, Try(TRIED - {k}, 1)) && s.proxies[p].Protocol() == k
    ensures LeadsTo(s0, s') && s'.valids == s.valids.Set(k, s.valids.Get(k) + [p]) && s'.closed == s.closed
    ensures SameNames(s, s') && !s'.proxies[p].locked
  {
    var s1 := TwoFail(s0, s, v, p, e, k);
    var s2 := Judges(s0, s1, v, p, e, 3, k);
    var s3 := Tallies(s0, s2, v, p, e, k);
    s' := Lists(s0, s3, v, p, e, k);
  }

  /** For each endpoint there are runs after which the list of protocol k holds
      that proxy and no other, on an open engine. */
  lemma SomeProxyIsListed(now: nat, endpoint: string, k: Protocol) returns (s: State)
    requires k in TRIED
    ensures LeadsTo(Initial(now), s) && s.valids.Get(k) == [0] && !s.closed
    ensures |s.proxies| == 1 && s.proxies[0].endpoint == endpoint && s.plot == map[endpoint := 0]
    ensures !s.proxies[0].locked && s.proxies[0].timesBad == 0 && s.opt == Initial(now).opt
  {
    InitialWellFormed(now);
    var s0 := Initial(now);
    assert Legal(s0, []) && s0 == Exec(s0, []);
    LeadsToItself(s0);
    var s1 := Loads(s0, s0, endpoint);
    var s2, u := Starts(s0, s1);
    var s3, v := Selects(s0, s2, u);
    s := Passes(s0, s3, v, 0, s3.proxies[0], k);
  }

  /** So concurrent callers of getSocksStr do crash: from every state in which a
      list holds one proxy, two new calls can bring one of them to the nil dereference. */
  lemma TwoCallersCrash(s: State, k: Protocol)
    requires CanBe(s) && k != ProtoNull && |s.valids.Get(k)| == 1
    ensures exists s', t :: LeadsTo(s, s') && 0 <= t < |s'.threads| && s'.threads[t] == Finished(Drained(k))
  {
    var t := |s.threads|;
    LeadsToItself(s);
    CallHop(s, s, GetStr(k, StrLoop));
    var s1 := s.(threads := s.threads + [GetStr(k, StrLoop)]);
    CallHop(s, s1, GetStr(k, StrLoop));
    var s2 := s1.(threads := s1.threads + [GetStr(k, StrLoop)]);
    TwoCallersCanDrain(s2, t, t + 1, k, Says(true));
    var acts :| && Legal(s2, acts) && t + 1 < |Exec(s2, acts).threads|
                && Exec(s2, acts).threads[t + 1] == Finished(Drained(k));
    ReachedFrom(s, s2, acts);
  }

  // ---------------------------------------------------------------- expelled within the limit

  /** getSocksStr takes the front of its list, finds it unlocked and a limit of failures in force. */
  lemma ReachesLimit(s0: State, s: State, k: Protocol) returns (s': State, t: nat)
    requires LeadsTo(s0, s) && k != ProtoNull && |s.valids.Get(k)| > 0 && s.valids.Get(k)[0] < |s.proxies|
    requires !s.proxies[s.valids.Get(k)[0]].locked && RemoveAfter(s) != -1
    ensures var p := s.valids.Get(k)[0];
            && LeadsTo(s0, s') && t < |s'.threads| && s'.threads[t] == StillGood(Str(k), p, [], SgLimit)
            && s'.proxies == s.proxies[p := s.proxies[p].(locked := true)] && s'.plot == s.plot && s'.opt == s.opt
  {
    t := |s.threads|;
    var p, o := s.valids.Get(k)[0], Says(true);
    CallHop(s0, s, GetStr(k, StrLoop));
    var s1 := s.(threads := s.threads + [GetStr(k, StrLoop)]);
    Hop(s0, s1, t, o, Read, GetStr(k, StrRemove));
    var s2 := Moved(s1, t, Read, GetStr(k, StrRemove));
    Hop(s0, s2, t, o, PopValid(k), StillGood(Str(k), p, [], SgCas));
    var s3 := Moved(s2, t, PopValid(k), StillGood(Str(k), p, [], SgCas));
    s' := LocksAndLooks(s0, s3, t, Str(k), p, []);
  }

  lemma LocksAndLooks(s0: State, s: State, t: nat, c: Caller, p: nat, todo: seq<Protocol>) returns (s': State)
    requires LeadsTo(s0, s) && t < |s.threads| && s.threads[t] == StillGood(c, p, todo, SgCas)
    requires p < |s.proxies| && !s.proxies[p].locked && RemoveAfter(s) != -1
    ensures LeadsTo(s0, s') && t < |s'.threads| && s'.threads[t] == StillGood(c, p, todo, SgLimit)
    ensures s'.proxies == s.proxies[p := s.proxies[p].(locked := true)] && s'.plot == s.plot && s'.opt == s.opt
  {
    var o := Says(true);
    var lock := Write(p, s.proxies[p].(locked := true));
    Hop(s0, s, t, o, lock, StillGood(c, p, todo, SgCount));
    var s1 := Moved(s, t, lock, StillGood(c, p, todo, SgCount));
    Hop(s0, s1, t, o, Read, StillGood(c, p, todo, SgLimit));
    s' := Moved(s1, t, Read, StillGood(c, p, todo, SgLimit));
  }

  /** A proxy can be expelled for no failure at all: from every state in which a
      limit of failures is in force and the proxy at the front of a list is
      unlocked, getSocksStr can take its endpoint off the map, if recycling is
      turned off between its two readings of the limit. */
  lemma ExpelledWithinLimit(s: State, k: Protocol) returns (s': State)
    requires CanBe(s) && k != ProtoNull && |s.valids.Get(k)| > 0 && s.valids.Get(k)[0] < |s.proxies|
    requires !s.proxies[s.valids.Get(k)[0]].locked && RemoveAfter(s) != -1
    ensures LeadsTo(s, s') && |s'.proxies| == |s.proxies|
    ensures s'.plot == s.plot - {s.proxies[s.valids.Get(k)[0]].endpoint}
    ensures forall q :: 0 <= q < |s.proxies| ==> s'.proxies[q].timesBad == s.proxies[q].timesBad
  {
    LeadsToItself(s);
    var s1, t := ReachesLimit(s, s, k);
    var off := Configure(s1.opt.(recycle := false));
    OneStep(s1, off);
    ReachedFrom(s, s1, [off]);
    s' := DeletesUnlimited(s, s1.(opt := s1.opt.(recycle := false)), t, Str(k), s.valids.Get(k)[0], []);
  }

  lemma DeletesUnlimited(s0: State, s: State, t: nat, c: Caller, p: nat, todo: seq<Protocol>) returns (s': State)
    requires LeadsTo(s0, s) && t < |s.threads| && s.threads[t] == StillGood(c, p, todo, SgLimit)
    requires p < |s.proxies| && !s.opt.recycle
    ensures LeadsTo(s0, s') && s'.proxies == s.proxies && s'.plot == s.plot - {s.proxies[p].endpoint}
  {
    var o := Says(true);
    Hop(s0, s, t, o, Read, StillGood(c, p, todo, SgDelete));
    var s1 := Moved(s, t, Read, StillGood(c, p, todo, SgDelete));
    Hop(s0, s1, t, o, MapDelete(s1.proxies[p].endpoint), StillGood(c, p, todo, SgDrop));
    s' := Moved(s1, t, MapDelete(s1.proxies[p].endpoint), StillGood(c, p, todo, SgDrop));
  }

  /** And it does come to that: a new engine with its default limit can lose a
      proxy that was validated and never failed. */
  lemma SomeProxyIsExpelled(now: nat, endpoint: string, k: Protocol) returns (before: State, after: State)
    requires k in TRIED
    ensures LeadsTo(Initial(now), before) && endpoint in before.plot
    ensures LeadsTo(before, after) && endpoint !in after.plot
    ensures |before.proxies| == 1 && before.proxies[0].endpoint == endpoint && before.proxies[0].timesBad == 0
    ensures |after.proxies| == 1 && after.proxies[0].timesBad == 0
  {
    before := SomeProxyIsListed(now, endpoint, k);
    WhatIsLedToCanBe(Initial(now), before);
    after := ExpelledWithinLimit(before, k);
  }

  // ---------------------------------------------------------------- more callers than proxies

  function Copies(pc: PC, n: nat): seq<PC> {
    if n == 0 then [] else Copies(pc, n - 1) + [pc]
  }

  lemma {:induction false} CopiesAre(pc: PC, n: nat)
    ensures |Copies(pc, n)| == n && forall i :: 0 <= i < n ==> Copies(pc, n)[i] == pc
  {
    if n > 0 {
      CopiesAre(pc, n - 1);
    }
  }

  /** As many calls as one likes have seen that the list is not empty. */
  lemma {:induction false} ManyLook(s0: State, s: State, k: Protocol, n: nat) returns (s': State)
    requires LeadsTo(s0, s) && k != ProtoNull && |s.valids.Get(k)| > 0
    ensures LeadsTo(s0, s') && s' == s.(threads := s.threads + Copies(GetStr(k, StrRemove), n))
  {
    if n == 0 {
      s' := s;
      assert s.threads + [] == s.threads;
    } else {
      var s1 := ManyLook(s0, s, k, n - 1);
      var t := |s1.threads|;
      CallHop(s0, s1, GetStr(k, StrLoop));
      var s2 := s1.(threads := s1.threads + [GetStr(k, StrLoop)]);
      Hop(s0, s2, t, Says(true), Read, GetStr(k, StrRemove));
      s' := Moved(s2, t, Read, GetStr(k, StrRemove));
      assert s'.threads == s1.threads + [GetStr(k, StrRemove)];
      assert s'.threads == s.threads + Copies(GetStr(k, StrRemove), n);
    }
  }

  /** From thread t on, m calls are about to remove from the list of protocol k. */
  predicate Waiting(s: State, k: Protocol, t: nat, m: nat) {
    t + m <= |s.threads| && forall i :: t <= i < t + m ==> s.threads[i] == GetStr(k, StrRemove)
  }

  lemma TakesFront(s0: State, s: State, k: Protocol, t: nat, m: nat) returns (s': State)
    requires LeadsTo(s0, s) && k != ProtoNull && |s.valids.Get(k)| > 0 && Waiting(s, k, t, m + 1)
    ensures LeadsTo(s0, s') && |s'.valids.Get(k)| == |s.valids.Get(k)| - 1 && Waiting(s', k, t + 1, m)
  {
    var pc := StillGood(Str(k), s.valids.Get(k)[0], [], SgCas);
    Hop(s0, s, t, Says(true), PopValid(k), pc);
    s' := Moved(s, t, PopValid(k), pc);
  }

  /** One call more than the list has proxies: each takes one, and the last dereferences nil. */
  lemma {:induction false} LastOneCrashes(s0: State, s: State, k: Protocol, t: nat, m: nat) returns (s': State)
    requires LeadsTo(s0, s) && k != ProtoNull && |s.valids.Get(k)| == m && Waiting(s, k, t, m + 1)
    ensures LeadsTo(s0, s') && t + m < |s'.threads| && s'.threads[t + m] == Finished(Drained(k))
    decreases m
  {
    if m == 0 {
      Hop(s0, s, t, Says(true), Read, Finished(Drained(k)));
      s' := Moved(s, t, Read, Finished(Drained(k)));
    } else {
      var s1 := TakesFront(s0, s, k, t, m);
      s' := LastOneCrashes(s0, s1, k, t + 1, m - 1);
    }
  }

  /** So concurrent callers of getSocksStr do crash, whatever the length of the
      list: from every state in which it is not empty, one call more than it has
      proxies can bring one of them to the nil dereference. */
  lemma CallersCrash(s: State, k: Protocol) returns (s': State, t: nat)
    requires CanBe(s) && k != ProtoNull && |s.valids.Get(k)| > 0
    ensures LeadsTo(s, s') && t == |s.threads| + |s.valids.Get(k)| && t < |s'.threads|
    ensures s'.threads[t] == Finished(Drained(k))
  {
    var n := |s.valids.Get(k)|;
    LeadsToItself(s);
    var s1 := ManyLook(s, s, k, n + 1);
    CopiesAre(GetStr(k, StrRemove), n + 1);
    assert forall i :: |s.threads| <= i < |s.threads| + n + 1 ==>
                         s1.threads[i] == Copies(GetStr(k, StrRemove), n + 1)[i - |s.threads|];
    s' := LastOneCrashes(s, s1, k, |s.threads|, n);
    t := |s.threads| + n;
  }
}
