/** daemons.go and list_management.go: loading, recycling and the spawner's
    rotation, under the same interference as the rest. */
module Daemons {
  import opened Proto
  import opened Machine
  import opened Facts
  import opened Invariant
  import opened Runs
  import opened Lifecycle
  import opened Engine
  import opened Histories
  import opened Loading
  import opened Parse
  import ParseLaws

  /** One atomic step and then the others; records evolve and Pending's contents
      only grow. The step is kept as evidence. With nobody else scheduled it is that step alone. */
  method ProceedDeed(p5: ProxyEngine, t: nat, o: Oracle, op: Op, pc: PC) returns (ghost d: Deed)
    requires p5.Valid() && p5.Due(t, o, op, pc)
    modifies p5
    ensures p5.Valid() && p5.birth == old(p5.birth)
    ensures old(p5.run) + [Step(t, o)] <= p5.run && Others(p5.run[|old(p5.run)| + 1..], t)
    ensures t < |p5.threads| && p5.threads[t] == pc && PcOk(pc, |p5.proxies|)
    ensures Later(old(p5.Abs()), p5.Abs()) && OpOk(old(p5.Abs()), op)
    ensures d == Deed(|old(p5.run)|, old(p5.Abs()),
                      Machine.Perform(old(p5.Abs()), op).(threads := old(p5.threads)[t := pc]))
    ensures p5.Did(d, t, |old(p5.run)|)
    ensures old(p5.schedule) == [] ==>
              && p5.schedule == [] && OpOk(old(p5.Abs()), op)
              && p5.Abs() == Machine.Perform(old(p5.Abs()), op).(threads := old(p5.threads)[t := pc])
    ensures multiset(old(p5.pending)) + (if op.AddPending? then multiset{op.sock} else multiset{})
         <= multiset(p5.pending)
  {
    ghost var s0 := p5.Abs();
    p5.ValidIsReachable();
    NextIsLater(s0, Step(t, o));
    DueIsNext(s0, t, o, op, pc);
    d := p5.StrideAll(t, o, op, pc);
    StepIsLater(s0, op, t, pc);
    LaterTransitive(s0, d.after, p5.Abs());
    p5.CounterInRange(t);
  }

  /** The same, without the evidence. */
  method Proceed(p5: ProxyEngine, t: nat, o: Oracle, op: Op, pc: PC)
    requires p5.Valid() && p5.Due(t, o, op, pc)
    modifies p5
    ensures p5.Valid() && p5.birth == old(p5.birth)
    ensures old(p5.run) + [Step(t, o)] <= p5.run && Others(p5.run[|old(p5.run)| + 1..], t)
    ensures t < |p5.threads| && p5.threads[t] == pc && PcOk(pc, |p5.proxies|)
    ensures Later(old(p5.Abs()), p5.Abs())
    ensures old(p5.schedule) == [] ==>
              && p5.schedule == [] && OpOk(old(p5.Abs()), op)
              && p5.Abs() == Machine.Perform(old(p5.Abs()), op).(threads := old(p5.threads)[t := pc])
    ensures multiset(old(p5.pending)) + (if op.AddPending? then multiset{op.sock} else multiset{})
         <= multiset(p5.pending)
  {
    ghost var d := ProceedDeed(p5, t, o, op, pc);
  }

  lemma StepIsLater(s: State, op: Op, t: nat, pc: PC)
    requires OpOk(s, op) && t < |s.threads|
    ensures multiset(s.pending) + (if op.AddPending? then multiset{op.sock} else multiset{})
         <= multiset(Machine.Perform(s, op).pending)
  {
    PendingOnlyGrows(s, op);
  }

  /** Some queued record has this endpoint. */
  ghost predicate Queued(s: State, endpoint: string) {
    exists p :: 0 <= p < |s.proxies| && p in s.pending && s.proxies[p].endpoint == endpoint
  }

  lemma QueuedStays(s: State, s': State, endpoint: string)
    requires Later(s, s') && multiset(s.pending) <= multiset(s'.pending) && Queued(s, endpoint)
    ensures Queued(s', endpoint)
  {
    var p :| 0 <= p < |s.proxies| && p in s.pending && s.proxies[p].endpoint == endpoint;
    assert p in multiset(s.pending) && p in multiset(s'.pending);
    assert Evolves(s.proxies[p], s'.proxies[p]);
  }

  /** Each line accepted so far is queued. */
  ghost predicate AllQueued(s: State, lines: seq<string>, accepted: seq<bool>) {
    forall j :: 0 <= j < |accepted| && j < |lines| && accepted[j] ==> Queued(s, lines[j])
  }

  lemma AllQueuedStay(s: State, s': State, lines: seq<string>, accepted: seq<bool>)
    requires Later(s, s') && multiset(s.pending) <= multiset(s'.pending) && |accepted| <= |lines|
    requires AllQueued(s, lines, accepted)
    ensures AllQueued(s', lines, accepted)
  {
    forall j | 0 <= j < |accepted| && accepted[j] ensures Queued(s', lines[j]) {
      QueuedStays(s, s', lines[j]);
    }
  }

  // ---------------------------------------------------------------- loading

  /** The engine with one more entry in the map, if it is a new one. */
  function Mapped(s: State, endpoint: string): (s': State)
    ensures endpoint in s'.plot
  {
    if endpoint in s.plot then s else Machine.Perform(s, MapInsert(endpoint))
  }

  /** And its record at the back of Pending. */
  function Loaded(s: State, endpoint: string): State {
    var s1 := Mapped(s, endpoint);
    s1.(pending := s1.pending + [s1.plot[endpoint]])
  }

  function LoadedAll(s: State, lines: seq<string>): State {
    if lines == [] then s else Loaded(LoadedAll(s, lines[..|lines| - 1]), lines[|lines| - 1])
  }

  /** Nobody else was scheduled, and the engine has become s but for its threads. */
  twostate predicate AloneBecame(p5: ProxyEngine, s: State)
    reads p5
  {
    old(p5.schedule) == [] ==> p5.schedule == [] && p5.Abs() == s.(threads := p5.threads)
  }

  /** The endpoint has an entry: the one it had, with map and records as they
      were, or a new one of a record with no protocol, no stamp and no tally. */
  twostate predicate Registered(p5: ProxyEngine, endpoint: string)
    reads p5
  {
    endpoint in p5.plot &&
    if endpoint in old(p5.plot) then p5.plot == old(p5.plot) && p5.proxies == old(p5.proxies)
    else
      && p5.plot == old(p5.plot)[endpoint := |old(p5.proxies)|]
      && p5.proxies == old(p5.proxies) + [Proxy(endpoint, "", Cell(ProtoNull, false), 0, 0, 0, false)]
  }

  /** In this run, since action `from`, somebody took the entry of this endpoint
      off the map. Said under a tag, like Reached. */
  ghost predicate UnmappedIn(birth: nat, run: seq<Action>, endpoint: string, from: nat) {
    forall k: nat {:trigger Tag(k)} :: Tag(k) ==>
      exists h: History, i: nat :: IsHistory(h, birth, run) && from <= i && UnmapsAt(h, i, endpoint)
  }

  /** A load that has failed since then shows it. */
  lemma WasUnmapped(p5: ProxyEngine, t: nat, endpoint: string, was: State, ran: seq<Action>)
    requires p5.Valid() && ran <= p5.run && Reached(p5.birth, ran, was)
    requires t < |was.threads| && was.threads[t] == Loader(endpoint, LSet)
    requires t < |p5.threads| && p5.threads[t] == Finished(LoadFailed)
    ensures UnmappedIn(p5.birth, p5.run, endpoint, |ran|)
  {
    assert Tag(0);
    InitialInv(p5.birth);
    var h := HistoryOf(Initial(p5.birth), p5.run);
    PastState(h, p5.birth, p5.run, ran, was);
    RestIsGenuine(h, |ran|);
    var i := LostMeansUnmapped(Rest(h, |ran|), t, endpoint);
    assert UnmapsAt(h, |ran| + i, endpoint);
  }

  lemma UnmappedSince(birth: nat, run: seq<Action>, endpoint: string, from: nat, later: nat)
    requires UnmappedIn(birth, run, endpoint, later) && from <= later
    ensures UnmappedIn(birth, run, endpoint, from)
  {
    assert Tag(0);
    var h: History, i: nat :| IsHistory(h, birth, run) && later <= i && UnmapsAt(h, i, endpoint);
  }

  /** proxyMap.add(): set if absent, then get. What it finds is a record of this endpoint. */
  method AddToMap(p5: ProxyEngine, t: nat, endpoint: string) returns (found: Option<nat>)
    requires p5.Valid() && t < |p5.threads| && p5.threads[t] == Loader(endpoint, LSet)
    modifies p5
    ensures p5.Valid() && p5.birth == old(p5.birth) && old(p5.run) < p5.run && p5.Grown(old(p5.Abs()))
    ensures found.Some? ==> t < |p5.threads| && p5.threads[t] == Loader(endpoint, LAdd(found.value))
    ensures found == None ==> UnmappedIn(p5.birth, p5.run, endpoint, |old(p5.run)|)
    ensures found.Some? ==> found.value < |p5.proxies| && p5.proxies[found.value].endpoint == endpoint
    ensures old(p5.schedule) == [] ==> found == Some(Mapped(old(p5.Abs()), endpoint).plot[endpoint])
    ensures AloneBecame(p5, Mapped(old(p5.Abs()), endpoint))
    ensures old(p5.schedule) == [] ==> Registered(p5, endpoint) && found == Some(p5.plot[endpoint])
  {
    ghost var ran := p5.run;
    ghost var s0 := p5.Abs();
    p5.CounterInRange(t);
    Proceed(p5, t, Says(true), if endpoint in p5.plot then Read else MapInsert(endpoint), Loader(endpoint, LGet));
    ghost var s1 := p5.Abs();
    found := LookUp(p5, t, endpoint);
    LaterTransitive(s0, s1, p5.Abs());
    if found == None {
      WasUnmapped(p5, t, endpoint, s0, ran);
    }
  }

  /** The get: it finds the entry iff it is still there. */
  method LookUp(p5: ProxyEngine, t: nat, endpoint: string) returns (found: Option<nat>)
    requires p5.Valid() && t < |p5.threads| && p5.threads[t] == Loader(endpoint, LGet)
    modifies p5
    ensures p5.Valid() && p5.birth == old(p5.birth) && old(p5.run) < p5.run && p5.Grown(old(p5.Abs()))
    ensures t < |p5.threads|
    ensures found == if endpoint in old(p5.plot) then Some(old(p5.plot)[endpoint]) else None
    ensures p5.threads[t] == if found.Some? then Loader(endpoint, LAdd(found.value)) else Finished(LoadFailed)
    ensures found.Some? ==> found.value < |p5.proxies| && p5.proxies[found.value].endpoint == endpoint
    ensures AloneBecame(p5, old(p5.Abs()))
  {
    p5.CounterInRange(t);
    if endpoint !in p5.plot {
      Proceed(p5, t, Says(true), Read, Finished(LoadFailed));
      return None;
    }
    ghost var s1 := p5.Abs();
    var p := p5.plot[endpoint];
    EntryNamed(p5, endpoint);
    Proceed(p5, t, Says(true), Read, Loader(endpoint, LAdd(p)));
    assert Evolves(s1.proxies[p], p5.proxies[p]);
    return Some(p);
  }

  lemma EntryNamed(p5: ProxyEngine, endpoint: string)
    requires p5.Valid() && endpoint in p5.plot
    ensures p5.plot[endpoint] < |p5.proxies| && p5.proxies[p5.plot[endpoint]].endpoint == endpoint
  {
    p5.ValidIsWellFormed();
  }

  /** loadSingleProxy(): the map, then the queue. A load that is accepted has
      queued a record of exactly this endpoint. By itself it always succeeds,
      also on an endpoint the map has already, whose record it keeps and queues
      again; it is refused only if the entry was taken off the map meanwhile. */
  method LoadEndpoint(p5: ProxyEngine, endpoint: string) returns (ok: bool)
    requires p5.Valid()
    modifies p5
    ensures p5.Valid() && p5.birth == old(p5.birth) && old(p5.run) < p5.run && p5.Grown(old(p5.Abs()))
    ensures ok ==> Queued(p5.Abs(), endpoint) && |old(p5.pending)| < |p5.pending|
    ensures !ok ==> UnmappedIn(p5.birth, p5.run, endpoint, |old(p5.run)|)
    ensures old(p5.schedule) == [] ==> ok
    ensures AloneBecame(p5, Loaded(old(p5.Abs()), endpoint))
    ensures old(p5.schedule) == [] ==>
              Registered(p5, endpoint) && p5.pending == old(p5.pending) + [p5.plot[endpoint]]
  {
    ghost var s0 := p5.Abs();
    var t := p5.Begin(Loader(endpoint, LSet));
    LoadedOnlyReadsTheRest(s0, p5.threads, endpoint);
    ghost var s1 := p5.Abs();
    ghost var ran1 := p5.run;
    ok := RunLoader(p5, t, endpoint);
    LaterTransitive(s0, s1, p5.Abs());
    if !ok {
      UnmappedSince(p5.birth, p5.run, endpoint, |old(p5.run)|, |ran1|);
    }
  }

  lemma LoadedOnlyReadsTheRest(s: State, ts: seq<PC>, endpoint: string)
    ensures forall us :: Loaded(s.(threads := ts), endpoint).(threads := us) == Loaded(s, endpoint).(threads := us)
  {
  }

  method RunLoader(p5: ProxyEngine, t: nat, endpoint: string) returns (ok: bool)
    requires p5.Valid() && t < |p5.threads| && p5.threads[t] == Loader(endpoint, LSet)
    modifies p5
    ensures p5.Valid() && p5.birth == old(p5.birth) && old(p5.run) < p5.run && p5.Grown(old(p5.Abs()))
    ensures ok ==> Queued(p5.Abs(), endpoint) && |old(p5.pending)| < |p5.pending|
    ensures !ok ==> UnmappedIn(p5.birth, p5.run, endpoint, |old(p5.run)|)
    ensures old(p5.schedule) == [] ==> ok
    ensures AloneBecame(p5, Loaded(old(p5.Abs()), endpoint))
  {
    ghost var s0 := p5.Abs();
    var found := AddToMap(p5, t, endpoint);
    if found == None {
      return false;
    }
    ghost var s1 := p5.Abs();
    Enqueue(p5, t, endpoint, found.value);
    LaterTransitive(s0, s1, p5.Abs());
    return true;
  }

  /** Pending.add(). */
  method Enqueue(p5: ProxyEngine, t: nat, endpoint: string, p: nat)
    requires p5.Valid() && t < |p5.threads| && p5.threads[t] == Loader(endpoint, LAdd(p))
    requires p < |p5.proxies| && p5.proxies[p].endpoint == endpoint
    modifies p5
    ensures p5.Valid() && p5.birth == old(p5.birth) && old(p5.run) < p5.run && p5.Grown(old(p5.Abs()))
    ensures Queued(p5.Abs(), endpoint) && |old(p5.pending)| < |p5.pending|
    ensures AloneBecame(p5, old(p5.Abs()).(pending := old(p5.pending) + [p]))
  {
    ghost var s0 := p5.Abs();
    p5.CounterInRange(t);
    Proceed(p5, t, Says(true), AddPending(p), Finished(Nothing));
    assert Evolves(s0.proxies[p], p5.proxies[p]);
    assert p in multiset(p5.pending);
    MoreQueued(s0.pending, p5.pending, p);
  }

  lemma MoreQueued(q: seq<nat>, q': seq<nat>, p: nat)
    requires multiset(q) + multiset{p} <= multiset(q')
    ensures |q| < |q'|
  {
    assert |multiset(q) + multiset{p}| == |q| + 1;
    assert multiset(q') == (multiset(q) + multiset{p}) + (multiset(q') - (multiset(q) + multiset{p}));
  }

  datatype LoadReply = LoadPanicked | Rejected | LoadedAs(endpoint: string) | Lost

  /** LoadSingleProxy(): the normaliser, then the load of what it returned. */
  method LoadSingleProxy(p5: ProxyEngine, r: Resolver, sock: string) returns (reply: LoadReply)
    requires p5.Valid()
    modifies p5
    ensures p5.Valid() && p5.birth == old(p5.birth) && old(p5.run) <= p5.run
    ensures match Filter(r, sock)
            case Panic => reply == LoadPanicked
            case Answer(text, ok) => if ok then reply == LoadedAs(text) || reply == Lost else reply == Rejected
    ensures reply.LoadedAs? ==> Queued(p5.Abs(), reply.endpoint)
    ensures reply == Rejected <==> ParseLaws.Refuses(r, sock)
    ensures sock == "example.com:http" && r.parse(sock) == None ==> reply == Rejected
    ensures reply == LoadPanicked || reply == Rejected ==> p5.Abs() == old(p5.Abs())
    ensures reply == Lost ==>
              Filter(r, sock).Answer? && UnmappedIn(p5.birth, p5.run, Filter(r, sock).text, |old(p5.run)|)
    ensures old(p5.schedule) == [] ==> reply != Lost
    ensures reply.LoadedAs? ==> AloneBecame(p5, Loaded(old(p5.Abs()), reply.endpoint))
  {
    ParseLaws.RefusesIff(r, sock);
    if sock == "example.com:http" && r.parse(sock) == None {
      ParseLaws.NamedPortIsRefused(r);
    }
    match Filter(r, sock)
    case Panic => return LoadPanicked;
    case Answer(text, ok) =>
      if !ok {
        return Rejected;
      }
      var loaded := LoadEndpoint(p5, text);
      return if loaded then LoadedAs(text) else Lost;
  }

  function CountTrue(bs: seq<bool>): nat {
    if bs == [] then 0 else CountTrue(bs[..|bs| - 1]) + (if bs[|bs| - 1] then 1 else 0)
  }

  /** LoadMultiLineString(): every line as it stands, without the normaliser;
      the count is that of the lines accepted, and each accepted line is queued at the end. */
  method LoadLines(p5: ProxyEngine, lines: seq<string>) returns (count: nat, accepted: seq<bool>)
    requires p5.Valid()
    modifies p5
    ensures p5.Valid() && p5.birth == old(p5.birth) && old(p5.run) <= p5.run
    ensures |accepted| == |lines| && count == CountTrue(accepted)
    ensures AllQueued(p5.Abs(), lines, accepted)
    ensures old(p5.schedule) == [] ==> count == |lines|
    ensures AloneBecame(p5, LoadedAll(old(p5.Abs()), lines))
  {
    count, accepted := 0, [];
    ghost var was := p5.Abs();
    assert was == was.(threads := p5.threads);
    var i := 0;
    while i < |lines|
      invariant 0 <= i <= |lines| && |accepted| == i && count == CountTrue(accepted)
      invariant p5.Valid() && p5.birth == old(p5.birth) && old(p5.run) <= p5.run
      invariant AllQueued(p5.Abs(), lines, accepted)
      invariant old(p5.schedule) == [] ==> count == i && p5.schedule == []
      invariant old(p5.schedule) == [] ==> p5.Abs() == LoadedAll(was, lines[..i]).(threads := p5.threads)
    {
      var ok := LoadLine(p5, lines, accepted, was, old(p5.schedule) == []);
      assert (accepted + [ok])[..|accepted|] == accepted;
      accepted := accepted + [ok];
      if ok {
        count := count + 1;
      }
      i := i + 1;
    }
    assert lines[..|lines|] == lines;
  }

  /** One line more. */
  method LoadLine(p5: ProxyEngine, lines: seq<string>, accepted: seq<bool>, ghost was: State, ghost alone: bool)
    returns (ok: bool)
    requires p5.Valid() && |accepted| < |lines| && AllQueued(p5.Abs(), lines, accepted)
    requires alone ==> p5.schedule == [] && p5.Abs() == LoadedAll(was, lines[..|accepted|]).(threads := p5.threads)
    modifies p5
    ensures p5.Valid() && p5.birth == old(p5.birth) && old(p5.run) < p5.run
    ensures AllQueued(p5.Abs(), lines, accepted + [ok])
    ensures alone ==> ok && p5.schedule == []
    ensures alone ==> p5.Abs() == LoadedAll(was, lines[..|accepted| + 1]).(threads := p5.threads)
  {
    ghost var s0 := p5.Abs();
    ok := LoadEndpoint(p5, lines[|accepted|]);
    AllQueuedStay(s0, p5.Abs(), lines, accepted);
    if alone {
      OneLineMore(was, lines, |accepted|, s0, p5.threads);
    }
  }

  lemma OneLineMore(s: State, lines: seq<string>, i: nat, s1: State, ts: seq<PC>)
    requires i < |lines| && s1 == LoadedAll(s, lines[..i]).(threads := s1.threads)
    ensures Loaded(s1, lines[i]).(threads := ts) == LoadedAll(s, lines[..i + 1]).(threads := ts)
  {
    assert lines[..i + 1][..i] == lines[..i];
  }

  // ---------------------------------------------------------------- recycling

  predicate Distinct(ids: seq<nat>) {
    forall i, j :: 0 <= i < j < |ids| ==> ids[i] != ids[j]
  }

  /** The map's records, each once, in whatever order the iterator yields them. */
  method Iterate(plot: map<string, nat>) returns (ids: seq<nat>)
    requires forall a, b :: a in plot && b in plot && plot[a] == plot[b] ==> a == b
    ensures |ids| == |plot| && Distinct(ids)
    ensures forall p :: p in ids <==> p in plot.Values
  {
    ids := [];
    var keys := plot.Keys;
    ghost var ks: seq<string> := [];
    while keys != {}
      invariant keys <= plot.Keys && |ks| == |ids| && |ids| + |keys| == |plot.Keys|
      invariant forall i :: 0 <= i < |ks| ==> ks[i] in plot && ks[i] !in keys && ids[i] == plot[ks[i]]
      invariant forall i, j :: 0 <= i < j < |ks| ==> ks[i] != ks[j]
      invariant forall e :: e in plot ==> e in keys || e in ks
      decreases keys
    {
      var e :| e in keys;
      ids := ids + [plot[e]];
      ks := ks + [e];
      keys := keys - {e};
    }
    assert |plot.Keys| == |plot|;
    KeysCover(plot, ks, ids);
  }

  lemma KeysCover(plot: map<string, nat>, ks: seq<string>, ids: seq<nat>)
    requires forall a, b :: a in plot && b in plot && plot[a] == plot[b] ==> a == b
    requires |ks| == |ids|
    requires forall i :: 0 <= i < |ks| ==> ks[i] in plot && ids[i] == plot[ks[i]]
    requires forall i, j :: 0 <= i < j < |ks| ==> ks[i] != ks[j]
    requires forall e :: e in plot ==> e in ks
    ensures Distinct(ids)
    ensures forall p :: p in ids <==> p in plot.Values
  {
    forall p | p in plot.Values ensures p in ids {
      var e :| e in plot && plot[e] == p;
      var i :| 0 <= i < |ks| && ks[i] == e;
      assert ids[i] == p;
    }
    forall p | p in ids ensures p in plot.Values {
      var i :| 0 <= i < |ids| && ids[i] == p;
      assert ks[i] in plot && plot[ks[i]] == p;
    }
    forall i, j | 0 <= i < j < |ids| ensures ids[i] != ids[j] {
      assert ks[i] != ks[j];
    }
  }

  /** The in-place shuffle: any sequence of swaps. */
  method Shuffle(tuples: array<nat>, swaps: seq<(nat, nat)>)
    requires forall k :: 0 <= k < |swaps| ==> swaps[k].0 < tuples.Length && swaps[k].1 < tuples.Length
    modifies tuples
    ensures multiset(tuples[..]) == multiset(old(tuples[..]))
  {
    for k := 0 to |swaps|
      invariant multiset(tuples[..]) == multiset(old(tuples[..]))
    {
      var (i, j) := swaps[k];
      tuples[i], tuples[j] := tuples[j], tuples[i];
    }
  }

  lemma {:induction false} CountInDistinct(ids: seq<nat>, p: nat)
    requires Distinct(ids)
    ensures multiset(ids)[p] <= 1
    decreases |ids|
  {
    if ids != [] {
      var n := |ids| - 1;
      CountInDistinct(ids[..n], p);
      assert ids == ids[..n] + [ids[n]];
      if ids[n] == p {
        assert p !in ids[..n];
      }
    }
  }

  /** A permutation of a walk is a walk. */
  lemma PermutationOfWalk(s: State, ids: seq<nat>, shuffled: seq<nat>)
    requires IsWalk(s, ids) && multiset(ids) == multiset(shuffled)
    ensures IsWalk(s, shuffled) && |shuffled| == |ids|
  {
    assert |multiset(ids)| == |ids| && |multiset(shuffled)| == |shuffled|;
    forall i, j | 0 <= i < j < |shuffled| ensures shuffled[i] != shuffled[j] {
      if shuffled[i] == shuffled[j] {
        RepeatedCounts(shuffled, i, j);
        CountInDistinct(ids, shuffled[i]);
      }
    }
    forall p ensures p in shuffled <==> p in s.plot.Values {
      assert p in shuffled <==> p in multiset(shuffled);
      assert p in ids <==> p in multiset(ids);
    }
  }

  /** Distinct endpoints have distinct records. */
  lemma EntriesDiffer(s: State, a: string, b: string)
    requires WellFormed(s) && a in s.plot && b in s.plot && s.plot[a] == s.plot[b]
    ensures a == b
  {
    assert s.proxies[s.plot[a]].endpoint == a;
  }

  /** A walk of the current map, shuffled if so configured. */
  method WalkMap(p5: ProxyEngine, shuffle: bool, swaps: seq<(nat, nat)>) returns (ids: seq<nat>)
    requires p5.Valid()
    requires forall k :: 0 <= k < |swaps| ==> swaps[k].0 < |p5.plot| && swaps[k].1 < |p5.plot|
    ensures IsWalk(p5.Abs(), ids) && |ids| == |p5.plot|
  {
    p5.ValidIsWellFormed();
    forall a, b | a in p5.plot && b in p5.plot && p5.plot[a] == p5.plot[b] ensures a == b {
      EntriesDiffer(p5.Abs(), a, b);
    }
    ids := Iterate(p5.plot);
    if shuffle {
      var tuples := new nat[|ids|](i requires 0 <= i < |ids| => ids[i]);
      assert tuples[..] == ids;
      Shuffle(tuples, swaps);
      PermutationOfWalk(p5.Abs(), ids, tuples[..]);
      ids := tuples[..];
    }
  }

  /** recycling(): if it got the mutex, recycling was on and the timer had
      ticked, it queues every record the map held when it decided to once more,
      in a shuffled order, and reports how many. By itself it changes nothing else. */
  method Recycling(p5: ProxyEngine, ticked: bool, shuffle: bool, swap: nat -> seq<(nat, nat)>)
    returns (count: nat, snapshot: map<string, nat>, walk: seq<nat>, ghost decided: Look)
    requires p5.Valid()
    requires forall n, k :: 0 <= k < |swap(n)| ==> swap(n)[k].0 < n && swap(n)[k].1 < n
    modifies p5
    ensures p5.Valid() && p5.birth == old(p5.birth) && old(p5.run) < p5.run
    ensures count == |walk| && |walk| == |snapshot| && Distinct(walk)
    ensures forall p :: p in walk <==> p in snapshot.Values
    ensures multiset(old(p5.pending)) + multiset(walk) <= multiset(p5.pending)
    ensures if old(p5.recycleMu) then snapshot == map[]
            else p5.Seen(decided, |old(p5.run)|)
                 && snapshot == if decided.at.opt.recycle && ticked then decided.at.plot else map[]
    ensures old(p5.schedule) == [] ==>
              snapshot == if !old(p5.recycleMu) && old(p5.opt.recycle) && ticked then old(p5.plot) else map[]
    ensures AloneBecame(p5, old(p5.Abs()).(pending := old(p5.pending) + walk))
  {
    count, snapshot, walk, decided := 0, map[], [], Look(0, p5.Abs());
    assert p5.pending + [] == p5.pending;
    ghost var ran := p5.run;
    var t := p5.Begin(Recycler(RTry));
    if p5.recycleMu {
      p5.CounterInRange(t);
      Proceed(p5, t, Says(false), Read, Finished(Recycled(0)));
      return;
    }
    ghost var run1 := p5.run;
    count, snapshot, walk, decided := RecycleOnce(p5, t, ticked, shuffle, swap);
    SeenSince(p5.birth, p5.run, decided, |ran|, |run1|);
  }

  lemma SeenSince(birth: nat, run: seq<Action>, l: Look, from: nat, later: nat)
    requires SeenIn(birth, run, l, later) && from <= later
    ensures SeenIn(birth, run, l, from)
  {
  }

  /** recycling() when the mutex is free. */
  method RecycleOnce(p5: ProxyEngine, t: nat, ticked: bool, shuffle: bool, swap: nat -> seq<(nat, nat)>)
    returns (count: nat, snapshot: map<string, nat>, walk: seq<nat>, ghost decided: Look)
    requires p5.Valid() && t < |p5.threads| && p5.threads[t] == Recycler(RTry) && !p5.recycleMu
    requires forall n, k :: 0 <= k < |swap(n)| ==> swap(n)[k].0 < n && swap(n)[k].1 < n
    modifies p5
    ensures p5.Valid() && p5.birth == old(p5.birth) && old(p5.run) < p5.run
    ensures count == |walk| && |walk| == |snapshot| && Distinct(walk)
    ensures forall p :: p in walk <==> p in snapshot.Values
    ensures multiset(old(p5.pending)) + multiset(walk) <= multiset(p5.pending)
    ensures p5.Seen(decided, |old(p5.run)|)
    ensures snapshot == if decided.at.opt.recycle && ticked then decided.at.plot else map[]
    ensures old(p5.schedule) == [] ==> decided.at.opt == old(p5.opt) && decided.at.plot == old(p5.plot)
    ensures AloneBecame(p5, old(p5.Abs()).(pending := old(p5.pending) + walk))
  {
    ghost var ran := p5.run;
    p5.CounterInRange(t);
    Proceed(p5, t, Says(false), SetRecycleMu(true), Recycler(RDecide));
    ghost var run1 := p5.run;
    decided := Look(|run1|, p5.Abs());
    p5.SeenNow(decided);
    count, snapshot, walk := RecycleLocked(p5, t, ticked, shuffle, swap);
    SeenStays(p5.birth, run1, p5.run, decided, |ran|);
  }

  /** recycling() under its mutex. */
  method RecycleLocked(p5: ProxyEngine, t: nat, ticked: bool, shuffle: bool, swap: nat -> seq<(nat, nat)>)
    returns (count: nat, snapshot: map<string, nat>, walk: seq<nat>)
    requires p5.Valid() && t < |p5.threads| && p5.threads[t] == Recycler(RDecide)
    requires forall n, k :: 0 <= k < |swap(n)| ==> swap(n)[k].0 < n && swap(n)[k].1 < n
    modifies p5
    ensures p5.Valid() && p5.birth == old(p5.birth) && old(p5.run) < p5.run
    ensures count == |walk| && |walk| == |snapshot| && Distinct(walk)
    ensures forall p :: p in walk <==> p in snapshot.Values
    ensures multiset(old(p5.pending)) + multiset(walk) <= multiset(p5.pending)
    ensures snapshot == if old(p5.opt.recycle) && ticked then old(p5.plot) else map[]
    ensures AloneBecame(p5, old(p5.Abs()).(pending := old(p5.pending) + walk, recycleMu := false))
  {
    count, snapshot, walk := 0, map[], [];
    assert p5.pending + [] == p5.pending;
    if !p5.opt.recycle || |p5.plot| < 1 || !ticked {
      NothingToRecycle(p5, t);
      return;
    }
    snapshot := p5.plot;
    walk := WalkMap(p5, shuffle, swap(|p5.plot|));
    count := Refill(p5, t, walk);
  }

  method NothingToRecycle(p5: ProxyEngine, t: nat)
    requires p5.Valid() && t < |p5.threads| && p5.threads[t] == Recycler(RDecide)
    modifies p5
    ensures p5.Valid() && p5.birth == old(p5.birth) && old(p5.run) < p5.run
    ensures multiset(old(p5.pending)) <= multiset(p5.pending)
    ensures AloneBecame(p5, old(p5.Abs()).(recycleMu := false))
  {
    p5.CounterInRange(t);
    Proceed(p5, t, Says(false), Read, Recycler(RUnlock(0)));
    Unlock(p5, t, 0);
  }

  /** The deferred release of the recycler's mutex. */
  method Unlock(p5: ProxyEngine, t: nat, count: nat)
    requires p5.Valid() && t < |p5.threads| && p5.threads[t] == Recycler(RUnlock(count))
    modifies p5
    ensures p5.Valid() && p5.birth == old(p5.birth) && old(p5.run) < p5.run
    ensures multiset(old(p5.pending)) <= multiset(p5.pending)
    ensures AloneBecame(p5, old(p5.Abs()).(recycleMu := false))
  {
    p5.CounterInRange(t);
    Proceed(p5, t, Says(true), SetRecycleMu(false), Finished(Recycled(count)));
  }

  function Walking(ids: seq<nat>): Oracle {
    Oracle(true, false, "", ProtoNull, [], ids)
  }

  /** From the decision to recycle to the unlock. */
  method Refill(p5: ProxyEngine, t: nat, walk: seq<nat>) returns (count: nat)
    requires p5.Valid() && t < |p5.threads| && p5.threads[t] == Recycler(RDecide)
    requires p5.opt.recycle && |p5.plot| >= 1 && IsWalk(p5.Abs(), walk)
    modifies p5
    ensures p5.Valid() && p5.birth == old(p5.birth) && old(p5.run) < p5.run
    ensures count == |walk|
    ensures multiset(old(p5.pending)) + multiset(walk) <= multiset(p5.pending)
    ensures AloneBecame(p5, old(p5.Abs()).(pending := old(p5.pending) + walk, recycleMu := false))
  {
    p5.CounterInRange(t);
    Proceed(p5, t, Walking(walk), Read, Recycler(RAdd(walk, 0)));
    count := AddAll(p5, t, walk);
    p5.CounterInRange(t);
    Proceed(p5, t, Says(true), Read, Recycler(RUnlock(count)));
    Unlock(p5, t, count);
  }

  /** The loop that queues the tuples one by one. */
  method AddAll(p5: ProxyEngine, t: nat, walk: seq<nat>) returns (count: nat)
    requires p5.Valid() && t < |p5.threads| && p5.threads[t] == Recycler(RAdd(walk, 0))
    modifies p5
    ensures p5.Valid() && p5.birth == old(p5.birth) && old(p5.run) <= p5.run
    ensures count == |walk| && t < |p5.threads| && p5.threads[t] == Recycler(RAdd([], count))
    ensures multiset(old(p5.pending)) + multiset(walk) <= multiset(p5.pending)
    ensures AloneBecame(p5, old(p5.Abs()).(pending := old(p5.pending) + walk))
  {
    count := 0;
    ghost var was, q := p5.Abs(), p5.pending;
    assert walk[0..] == walk;
    assert q + walk[..0] == q;
    while count < |walk|
      invariant 0 <= count <= |walk|
      invariant p5.Valid() && p5.birth == old(p5.birth) && old(p5.run) <= p5.run
      invariant t < |p5.threads| && p5.threads[t] == Recycler(RAdd(walk[count..], count))
      invariant multiset(q) + multiset(walk[..count]) <= multiset(p5.pending)
      invariant old(p5.schedule) == [] ==>
                  p5.schedule == [] && p5.Abs() == was.(pending := q + walk[..count], threads := p5.threads)
    {
      AddNext(p5, t, walk, count, was, old(p5.schedule) == []);
      count := count + 1;
    }
    assert walk[..count] == walk && walk[count..] == [];
  }

  /** One tuple more, seen from the beginning of the loop. */
  method AddNext(p5: ProxyEngine, t: nat, walk: seq<nat>, count: nat, ghost was: State, ghost alone: bool)
    requires p5.Valid() && t < |p5.threads| && count < |walk| && p5.threads[t] == Recycler(RAdd(walk[count..], count))
    requires multiset(was.pending) + multiset(walk[..count]) <= multiset(p5.pending)
    requires alone ==>
               && p5.schedule == []
               && p5.Abs() == was.(pending := was.pending + walk[..count], threads := p5.threads)
    modifies p5
    ensures p5.Valid() && p5.birth == old(p5.birth) && old(p5.run) < p5.run
    ensures t < |p5.threads| && p5.threads[t] == Recycler(RAdd(walk[count + 1..], count + 1))
    ensures multiset(was.pending) + multiset(walk[..count + 1]) <= multiset(p5.pending)
    ensures alone ==>
              && p5.schedule == []
              && p5.Abs() == was.(pending := was.pending + walk[..count + 1], threads := p5.threads)
  {
    OneMore(was.pending, walk, count);
    AddOne(p5, t, walk, count);
  }

  lemma OneMore(q: seq<nat>, walk: seq<nat>, count: nat)
    requires count < |walk|
    ensures (q + walk[..count]) + [walk[count]] == q + walk[..count + 1]
    ensures multiset(walk[..count + 1]) == multiset(walk[..count]) + multiset{walk[count]}
  {
    assert walk[..count + 1] == walk[..count] + [walk[count]];
  }

  method AddOne(p5: ProxyEngine, t: nat, walk: seq<nat>, count: nat)
    requires p5.Valid() && t < |p5.threads| && count < |walk| && p5.threads[t] == Recycler(RAdd(walk[count..], count))
    modifies p5
    ensures p5.Valid() && p5.birth == old(p5.birth) && old(p5.run) < p5.run
    ensures t < |p5.threads| && p5.threads[t] == Recycler(RAdd(walk[count + 1..], count + 1))
    ensures multiset(old(p5.pending)) + multiset{walk[count]} <= multiset(p5.pending)
    ensures AloneBecame(p5, old(p5.Abs()).(pending := old(p5.pending) + [walk[count]]))
  {
    p5.CounterInRange(t);
    assert walk[count..][0] == walk[count] && walk[count..][1..] == walk[count + 1..];
    Proceed(p5, t, Says(true), AddPending(walk[count]), Recycler(RAdd(walk[count + 1..], count + 1)));
  }
}
