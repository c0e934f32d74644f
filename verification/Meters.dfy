/** Quantities summed over all threads. A step changes one counter and may add
    one, so a sum moves by the difference of the weights: conservation laws
    over any interleaving reduce to arithmetic on one thread. */
module Meters {
  import opened Proto
  import opened Machine

  datatype Meter =
    | Holding(sock: nat)         // threads inside the critical section of a record's lock
    | Unsettled(sock: nat)       // validators between their first check and good()/bad()
    | Passed(proto: Protocol)    // good() done, counter not yet incremented
    | Counted(proto: Protocol)   // counter incremented, not yet on the list
    | Checks                     // network checks of validate calls without a verdict so far
    | InFlight                   // validators that can still be counted valid once the engine is closed
    | Gets                       // completed GetAnySOCKS and getSocksStr calls
    | Refilling                  // recyclers past TryLock

  function Held(pc: PC): Option<nat> {
    match pc
    case Validator(p, _, v) => if v.Cas? then None else Some(p)
    case StillGood(_, p, _, q) => if q.SgCas? then None else Some(p)
    case Dialer(_, _, _, d) => if d.DHold? || d.DRelease? then Some(d.sock) else None
    case _ => None
  }

  function ChecksOf(v: VStage): nat {
    match v
    case Try(_, checks) => checks
    case Probe(_, _, _, checks) => checks
    case Count(_, _, _, checks, _) => checks
    case Fix(_, _, checks) => checks
    case Judge(checks) => checks
    case MarkBad(checks) => checks
    case MarkGood(_, checks) => checks
    case _ => 0
  }

  function GetsOf(pc: PC): nat {
    match pc
    case GetAny(c, _) => if c.Dial? then c.gets else 0
    case StillGood(c, _, _, _) => if c.Dial? then c.gets else 0
    case Dialer(_, _, g, _) => g
    case Finished(GotProxy(_)) => 1
    case Finished(GotEndpoint(_, _, _)) => 1
    case Finished(GotConn(_, _, g)) => g
    case Finished(DialFailed(_, _, g)) => g
    case _ => 0
  }

  /** Past the context check at the top, and not about to meet the one in the protocol loop. */
  predicate MayPass(v: VStage) {
    match v
    case Limits => true
    case Try(todo, _) => todo == {}
    case Probe(_, todo, first, _) => !first || todo == {}
    case Count(_, todo, first, _, _) => !first || todo == {}
    case Fix(_, todo, _) => todo == {}
    case Judge(_) => true
    case MarkGood(_, _) => true
    case Stamp(_) => true
    case Tally(_) => true
    case _ => false
  }

  function Weight(m: Meter, pc: PC): nat {
    match m
    case Holding(p) => if Held(pc) == Some(p) then 1 else 0
    case Unsettled(p) =>
      if pc.Validator? && pc.sock == p
         && (pc.v.Try? || pc.v.Probe? || pc.v.Count? || pc.v.Fix? || pc.v.Judge? || pc.v.MarkGood?)
      then 1 else 0
    case Passed(k) => if pc.Validator? && ((pc.v.Stamp? || pc.v.Tally?) && pc.v.proto == k) then 1 else 0
    case Counted(k) => if pc.Validator? && pc.v.Push? && pc.v.proto == k then 1 else 0
    case InFlight => if pc.Validator? && MayPass(pc.v) then 1 else 0
    case Checks => if pc.Validator? then ChecksOf(pc.v) else 0
    case Gets => GetsOf(pc)
    case Refilling => if pc.Recycler? && !pc.y.RTry? then 1 else 0
  }

  function Sum(m: Meter, ts: seq<PC>): nat {
    if ts == [] then 0 else Sum(m, ts[..|ts| - 1]) + Weight(m, ts[|ts| - 1])
  }

  lemma {:induction false} SumUpdate(m: Meter, ts: seq<PC>, t: nat, pc: PC)
    requires t < |ts|
    ensures Sum(m, ts[t := pc]) == Sum(m, ts) - Weight(m, ts[t]) + Weight(m, pc)
  {
    var last := |ts| - 1;
    if t == last {
      assert ts[t := pc][..last] == ts[..last];
    } else {
      assert ts[t := pc][..last] == ts[..last][t := pc];
      SumUpdate(m, ts[..last], t, pc);
    }
  }

  lemma SumAppend(m: Meter, ts: seq<PC>, pc: PC)
    ensures Sum(m, ts + [pc]) == Sum(m, ts) + Weight(m, pc)
  {
    assert (ts + [pc])[..|ts|] == ts;
  }

  /** What a thread's effect does to every sum. */
  lemma SumApply(m: Meter, ts: seq<PC>, t: nat, e: Effect)
    requires t < |ts|
    ensures Sum(m, ts[t := e.pc] + Born(e.born))
         == Sum(m, ts) - Weight(m, ts[t]) + Weight(m, e.pc) + (if e.born.Some? then Weight(m, e.born.value) else 0)
  {
    SumUpdate(m, ts, t, e.pc);
    match e.born
    case None => assert ts[t := e.pc] + [] == ts[t := e.pc];
    case Some(pc) => SumAppend(m, ts[t := e.pc], pc);
  }

  /** Two different threads weigh no more than all of them. */
  lemma {:induction false} SumCovers(m: Meter, ts: seq<PC>, t: nat, u: nat)
    requires t < |ts| && u < |ts| && t != u
    ensures Weight(m, ts[t]) + Weight(m, ts[u]) <= Sum(m, ts)
  {
    SumUpdate(m, ts, t, Finished(Nothing));
    var rest := ts[t := Finished(Nothing)];
    SumUpdate(m, rest, u, Finished(Nothing));
    assert Weight(m, Finished(Nothing)) == 0;
  }

  lemma SumCoversOne(m: Meter, ts: seq<PC>, t: nat)
    requires t < |ts|
    ensures Weight(m, ts[t]) <= Sum(m, ts)
  {
    SumUpdate(m, ts, t, Finished(Nothing));
    assert Weight(m, Finished(Nothing)) == 0;
  }

  /** A sum that is not zero has a thread that weighs something. */
  lemma {:induction false} SumFinds(m: Meter, ts: seq<PC>) returns (t: nat)
    requires Sum(m, ts) > 0
    ensures t < |ts| && Weight(m, ts[t]) > 0
  {
    var last := |ts| - 1;
    if Weight(m, ts[last]) > 0 {
      t := last;
    } else {
      t := SumFinds(m, ts[..last]);
    }
  }

  // ---------------------------------------------------------------- sums over the records

  datatype Gauge =
    | ValidOf(proto: Protocol)   // successful validations of records fixed to a protocol
    | Verdicts                   // verdicts of either kind
    | Locks                      // locked records

  function Reading(g: Gauge, r: Proxy): nat {
    match g
    case ValidOf(k) => if r.Protocol() == k then r.timesValidated else 0
    case Verdicts => r.timesValidated + r.timesBad
    case Locks => if r.locked then 1 else 0
  }

  function Total(g: Gauge, rs: seq<Proxy>): nat {
    if rs == [] then 0 else Total(g, rs[..|rs| - 1]) + Reading(g, rs[|rs| - 1])
  }

  lemma {:induction false} TotalUpdate(g: Gauge, rs: seq<Proxy>, p: nat, r: Proxy)
    requires p < |rs|
    ensures Total(g, rs[p := r]) == Total(g, rs) - Reading(g, rs[p]) + Reading(g, r)
  {
    var last := |rs| - 1;
    if p == last {
      assert rs[p := r][..last] == rs[..last];
    } else {
      assert rs[p := r][..last] == rs[..last][p := r];
      TotalUpdate(g, rs[..last], p, r);
    }
  }

  lemma TotalAppend(g: Gauge, rs: seq<Proxy>, r: Proxy)
    ensures Total(g, rs + [r]) == Total(g, rs) + Reading(g, r)
  {
    assert (rs + [r])[..|rs|] == rs;
  }

  /** How far an operation moves a total. */
  function Moved(g: Gauge, s: State, op: Op): int
    requires OpOk(s, op)
  {
    match op
    case Write(p, r) => Reading(g, r) - Reading(g, s.proxies[p])
    case MapInsert(e) => Reading(g, NewProxy(e))
    case _ => 0
  }

  lemma TotalPerform(g: Gauge, s: State, op: Op)
    requires OpOk(s, op)
    ensures Total(g, Perform(s, op).proxies) == Total(g, s.proxies) + Moved(g, s, op)
  {
    match op
    case Write(p, r) => TotalUpdate(g, s.proxies, p, r);
    case MapInsert(e) => TotalAppend(g, s.proxies, NewProxy(e));
    case _ =>
  }
}
