/** What each program point knows about the record it works on. Under the lock
    this is an as-if-alone account of validate(): whatever other threads do in
    between, the record changes only as this call changes it. */
module Facts {
  import opened Proto
  import opened Machine
  import opened Meters

  /** Holds of every record at all times. */
  predicate RecOk(r: Proxy) {
    && (r.cell.fired <==> r.Protocol() != ProtoNull)
    && r.Protocol() != ProtoHTTP
    && (r.timesValidated > 0 ==> r.Protocol() != ProtoNull)
  }

  /** Validated at least once, with a protocol that can no longer change. */
  predicate Proven(r: Proxy) {
    r.timesValidated > 0 && r.cell.fired && r.Protocol() != ProtoNull
  }

  /** A protocol is known exactly when a validation has succeeded. */
  predicate Settled(r: Proxy) {
    r.Protocol() != ProtoNull <==> r.timesValidated > 0
  }

  /** How a record may evolve over any number of steps. */
  predicate Evolves(r: Proxy, r': Proxy) {
    && r'.endpoint == r.endpoint
    && (r.cell.fired ==> r'.cell == r.cell)
    && r.timesValidated <= r'.timesValidated
    && r.timesBad <= r'.timesBad
  }

  /** validate() takes the branch that tries all protocols. */
  predicate Fresh(e: Proxy) {
    e.timesValidated == 0 || e.Protocol() == ProtoNull
  }

  /** The tallies and the stamp are as they were when the lock was taken. */
  predicate SameTally(e: Proxy, r: Proxy) {
    r.timesValidated == e.timesValidated && r.timesBad == e.timesBad && r.lastValidated == e.lastValidated
  }

  predicate Counting(e: Proxy, r: Proxy, todo: set<Protocol>, checks: nat) {
    Fresh(e) && SameTally(e, r) && todo <= TRIED && checks + |todo| == 3
  }

  /** The record r of a validate() call that found it as e and now stands at v. */
  predicate AsIfAlone(e: Proxy, r: Proxy, v: VStage, closed: bool) {
    && !e.locked && r.locked && RecOk(e) && Evolves(e, r)
    && (Settled(e) || (closed && (v.Gate? || v == Release(CutShort))))
    && match v
       case Cas => false
       case Gate => r == e.(locked := true)
       case Limits => r == e.(locked := true)
       case Try(todo, checks) => Counting(e, r, todo, checks)
       case Probe(proto, todo, first, checks) => Probing(e, r, proto, todo, first, checks)
       case Count(proto, todo, first, checks, _) => Probing(e, r, proto, todo, first, checks)
       case Fix(proto, todo, checks) => proto in TRIED && Counting(e, r, todo, checks)
       case Judge(checks) => SameTally(e, r) && checks == (if Fresh(e) then 3 else 1)
       case MarkBad(checks) =>
         SameTally(e, r) && checks == (if Fresh(e) then 3 else 1) && (Fresh(e) ==> r.Protocol() == ProtoNull)
       case MarkGood(proto, checks) =>
         SameTally(e, r) && checks == (if Fresh(e) then 3 else 1) && r.Protocol() == proto != ProtoNull
       case Stamp(proto) =>
         r.timesValidated == e.timesValidated + 1 && r.timesBad == e.timesBad && r.Protocol() == proto != ProtoNull
       case Tally(proto) => PassedOnce(e, r) && r.Protocol() == proto
       case Push(proto) => PassedOnce(e, r) && r.Protocol() == proto
       case Release(verdict) => Judged(e, r, verdict, closed)
  }

  predicate Probing(e: Proxy, r: Proxy, proto: Protocol, todo: set<Protocol>, first: bool, checks: nat) {
    && SameTally(e, r)
    && first == Fresh(e)
    && (first ==> proto in TRIED && todo <= TRIED && checks + 1 + |todo| == 3)
    && (!first ==> proto == e.Protocol() && checks == 0)
  }

  predicate PassedOnce(e: Proxy, r: Proxy) {
    && r.timesValidated == e.timesValidated + 1
    && r.timesBad == e.timesBad
    && r.Protocol() != ProtoNull
  }

  /** What the whole call did to the record, by verdict. */
  predicate Judged(e: Proxy, r: Proxy, verdict: Verdict, closed: bool) {
    match verdict
    case Refused => false
    case CutShort => closed && SameTally(e, r)
    case Limited => r == e.(locked := true)
    case Bad =>
      && r.timesBad == e.timesBad + 1
      && r.timesValidated == e.timesValidated
      && r.lastValidated == e.lastValidated
      && r.cell == e.cell
    case Good => PassedOnce(e, r)
  }

  /** stillGood() judged the record by these numbers, and the record has not changed since. */
  predicate WithinPolicy(r: Proxy, limit: int, asOf: int, window: int) {
    (limit == -1 || r.timesBad <= limit) && asOf - r.lastValidated <= window
  }

  predicate KnownProven(rs: seq<Proxy>, found: Option<nat>) {
    found.Some? ==> found.value < |rs| && Proven(rs[found.value])
  }

  predicate ProvenAs(rs: seq<Proxy>, p: nat, proto: Protocol) {
    p < |rs| && Proven(rs[p]) && rs[p].Protocol() == proto
  }

  predicate CallerOk(c: Caller) {
    c.Dial? ==> c.attempts == c.count
  }

  /** What thread counter pc knows in state s. */
  predicate Knows(s: State, pc: PC) {
    match pc
    case Validator(p, e, v) => p < |s.proxies| && (v.Cas? || AsIfAlone(e, s.proxies[p], v, s.closed))
    case GetAny(c, g) => CallerOk(c) && (g.Exit? ==> KnownProven(s.proxies, g.found) && (g.found == None ==> s.closed))
    case StillGood(c, p, _, q) =>
      && CallerOk(c)
      && KnownProven(s.proxies, Some(p))
      && (c.Str? ==> s.proxies[p].Protocol() == c.proto)
      && (!q.SgCas? ==> s.proxies[p].locked)
      && (q.SgPeek? || q.SgStale? ==> q.limit == -1 || s.proxies[p].timesBad <= q.limit)
      && (q.SgKeep? ==> WithinPolicy(s.proxies[p], q.limit, q.asOf, q.window) && q.asOf <= s.now)
    case GetStr(proto, r) =>
      && (r.StrRemove? ==> proto != ProtoHTTP)
      && (r.StrExit? ==> ProvenAs(s.proxies, r.sock, proto))
    case Dialer(n, m, _, d) =>
      && m == n
      && (d.DGot? ==> KnownProven(s.proxies, d.found) && (d.found == None ==> s.closed))
      && (d.DCas? || d.DRequeue? || d.DHold? || d.DRelease? || d.DDial? ==> KnownProven(s.proxies, Some(d.sock)))
      && (d.DHold? || d.DRelease? ==> s.proxies[d.sock].locked)
    case Spawner(j) => j.JRotate? ==> |s.pending| > 0
    case Finished(out) => Honest(s, out)
    case _ => true
  }

  /** What a finished call has handed out. */
  predicate Honest(s: State, out: Outcome) {
    match out
    case GotProxy(found) => KnownProven(s.proxies, found) && (found == None ==> s.closed)
    case GotEndpoint(proto, p, endpoint) => ProvenAs(s.proxies, p, proto) && endpoint == s.proxies[p].endpoint
    case GotConn(p, m, _) => KnownProven(s.proxies, Some(p)) && m > 0
    case DialFailed(why, _, _) => why != UnknownProtocol
    case SpawnerCrashed => false
    case _ => true
  }

  /** Each proxy on a valid list has been validated, as that list's protocol. */
  ghost predicate TypedLists(s: State) {
    forall k: Protocol, i :: k != ProtoNull && 0 <= i < |s.valids.Get(k)| ==> ProvenAs(s.proxies, s.valids.Get(k)[i], k)
  }

  ghost predicate Informed(s: State) {
    && (forall p :: 0 <= p < |s.proxies| ==> RecOk(s.proxies[p]))
    && (forall t :: 0 <= t < |s.threads| ==> Knows(s, s.threads[t]))
    && TypedLists(s)
  }

  /** While the engine is live, a record's protocol is known iff it has been
      validated, except between a validator's first check and its verdict. */
  ghost predicate SettledUnlessBusy(s: State) {
    !s.closed ==> forall p :: 0 <= p < |s.proxies| && !Settled(s.proxies[p]) ==> Sum(Unsettled(p), s.threads) >= 1
  }

  // ---------------------------------------------------------------- the moving thread

  /** What the step leaves its own thread knowing, and how it treats records and lists. */
  ghost predicate GoodEffect(s: State, e: Effect)
    requires OpOk(s, e.op)
  {
    && Knows(Perform(s, e.op), e.pc)
    && (e.born.Some? ==> Knows(s, e.born.value))
    && (e.op.Write? ==> RecOk(e.op.rec) && Evolves(s.proxies[e.op.sock], e.op.rec))
    && (e.op.PushValid? || e.op.Requeue? ==> ProvenAs(s.proxies, e.op.sock, e.op.proto))
  }

  ghost predicate Context(s: State, pc: PC, o: Oracle) {
    && PcOk(pc, |s.proxies|) && OracleOk(s, pc, o) && OpOk(s, ThreadEffect(s, pc, o).op)
    && Knows(s, pc)
    && TypedLists(s)
    && (forall p :: 0 <= p < |s.proxies| ==> RecOk(s.proxies[p]))
  }

  /** The record a step of a thread working on p leaves behind. */
  function After(r: Proxy, op: Op): Proxy {
    if op.Write? then op.rec else r
  }

  /** Before the loop over the protocols, and in it. */
  lemma CheckingAlone(s: State, p: nat, e: Proxy, v: VStage, o: Oracle)
    requires p < |s.proxies| && RecOk(s.proxies[p]) && OracleOk(s, Validator(p, e, v), o)
    requires v.Cas? || v.Gate? || v.Limits? || v.Try? || v.Fix?
    requires if v.Cas? then s.closed || s.proxies[p].locked || Settled(s.proxies[p])
             else AsIfAlone(e, s.proxies[p], v, s.closed)
    ensures var f := ValidatorEffect(s, p, e, v, o);
            && (f.pc.Validator? ==> AsIfAlone(f.pc.entry, After(s.proxies[p], f.op), f.pc.v, s.closed))
            && (f.op.Write? ==> RecOk(f.op.rec) && Evolves(s.proxies[p], f.op.rec))
  {
    match v
    case Limits =>
      assert |TRIED| == 3;
    case Try(todo, checks) =>
      if todo != {} {
        assert |todo - {o.proto}| == |todo| - 1;
      }
    case _ =>
  }

  /** One network check, and what follows it. */
  lemma ProbingAlone(s: State, p: nat, e: Proxy, v: VStage, o: Oracle)
    requires p < |s.proxies| && RecOk(s.proxies[p])
    requires v.Probe? || v.Count?
    requires AsIfAlone(e, s.proxies[p], v, s.closed)
    ensures var f := ValidatorEffect(s, p, e, v, o);
            && f.pc.Validator? && f.pc.entry == e
            && AsIfAlone(e, After(s.proxies[p], f.op), f.pc.v, s.closed)
            && (f.op.Write? ==> RecOk(f.op.rec) && Evolves(s.proxies[p], f.op.rec))
  {
  }

  /** From the verdict to the release of the lock. */
  lemma JudgingAlone(s: State, p: nat, e: Proxy, v: VStage, o: Oracle)
    requires p < |s.proxies| && RecOk(s.proxies[p])
    requires !v.Cas? && !v.Gate? && !v.Limits? && !v.Try? && !v.Fix? && !v.Probe? && !v.Count?
    requires AsIfAlone(e, s.proxies[p], v, s.closed)
    ensures var f := ValidatorEffect(s, p, e, v, o);
            && (f.pc.Validator? ==> AsIfAlone(f.pc.entry, After(s.proxies[p], f.op), f.pc.v, s.closed))
            && (f.op.Write? ==> RecOk(f.op.rec) && Evolves(s.proxies[p], f.op.rec))
            && (f.op.PushValid? ==> Proven(s.proxies[p]) && s.proxies[p].Protocol() == f.op.proto)
  {
  }

  /** validate() writes and pushes no record but its own. */
  lemma ValidatorTouches(s: State, p: nat, e: Proxy, v: VStage, o: Oracle)
    requires p < |s.proxies|
    ensures var f := ValidatorEffect(s, p, e, v, o);
            && Touches(f, p)
            && (f.op.PushValid? ==> v.Push?)
  {
  }

  predicate Touches(f: Effect, p: nat) {
    && f.born == None && !f.op.Requeue? && !f.op.MapInsert? && !f.op.Quit? && !f.op.CountDispensed?
    && (f.op.Write? || f.op.PushValid? ==> f.op.sock == p)
    && (if f.pc.Validator? then f.pc.sock == p && !f.pc.v.Cas? else f.pc.Finished? && f.pc.out.Validated?)
  }

  lemma AloneIsGood(s: State, p: nat, f: Effect)
    requires p < |s.proxies| && OpOk(s, f.op) && Touches(f, p)
    requires f.pc.Validator? ==> AsIfAlone(f.pc.entry, After(s.proxies[p], f.op), f.pc.v, s.closed)
    requires f.op.Write? ==> RecOk(f.op.rec) && Evolves(s.proxies[p], f.op.rec)
    requires f.op.PushValid? ==> Proven(s.proxies[p]) && s.proxies[p].Protocol() == f.op.proto
    ensures GoodEffect(s, f)
  {
    assert |Perform(s, f.op).proxies| == |s.proxies|;
    assert Perform(s, f.op).proxies[p] == After(s.proxies[p], f.op);
    assert Perform(s, f.op).closed == s.closed;
  }

  lemma ValidatorGood(s: State, pc: PC, o: Oracle)
    requires Context(s, pc, o) && pc.Validator?
    requires pc.v.Cas? && !s.proxies[pc.sock].locked && !s.closed ==> Settled(s.proxies[pc.sock])
    ensures GoodEffect(s, ThreadEffect(s, pc, o))
  {
    var Validator(p, e, v) := pc;
    assert RecOk(s.proxies[p]);
    if v.Cas? || v.Gate? || v.Limits? || v.Try? || v.Fix? {
      CheckingAlone(s, p, e, v, o);
    } else if v.Probe? || v.Count? {
      ProbingAlone(s, p, e, v, o);
    } else {
      JudgingAlone(s, p, e, v, o);
    }
    ValidatorTouches(s, p, e, v, o);
    AloneIsGood(s, p, ThreadEffect(s, pc, o));
  }

  lemma GetAnyGood(s: State, pc: PC, o: Oracle)
    requires Context(s, pc, o) && pc.GetAny?
    ensures GoodEffect(s, ThreadEffect(s, pc, o))
  {
    if pc.g.Pop? && |s.valids.Get(pc.g.proto)| > 0 {
      assert ProvenAs(s.proxies, s.valids.Get(pc.g.proto)[0], pc.g.proto);
    }
  }

  lemma GetStrGood(s: State, pc: PC, o: Oracle)
    requires Context(s, pc, o) && pc.GetStr?
    ensures GoodEffect(s, ThreadEffect(s, pc, o))
  {
    if |s.valids.Get(pc.proto)| > 0 {
      assert ProvenAs(s.proxies, s.valids.Get(pc.proto)[0], pc.proto);
    }
  }

  lemma StillGoodGood(s: State, pc: PC, o: Oracle)
    requires Context(s, pc, o) && pc.StillGood?
    ensures GoodEffect(s, ThreadEffect(s, pc, o))
  {
    assert RecOk(s.proxies[pc.sock]);
    if pc.q.SgCas? || pc.q.SgDrop? || pc.q.SgKeep? {
      StillGoodWrites(s, pc, o);
    } else {
      StillGoodReads(s, pc, o);
    }
  }

  lemma StillGoodWrites(s: State, pc: PC, o: Oracle)
    requires Context(s, pc, o) && pc.StillGood? && RecOk(s.proxies[pc.sock])
    requires pc.q.SgCas? || pc.q.SgDrop? || pc.q.SgKeep?
    ensures GoodEffect(s, ThreadEffect(s, pc, o))
  {
  }

  lemma StillGoodReads(s: State, pc: PC, o: Oracle)
    requires Context(s, pc, o) && pc.StillGood?
    requires !pc.q.SgCas? && !pc.q.SgDrop? && !pc.q.SgKeep?
    ensures GoodEffect(s, ThreadEffect(s, pc, o))
  {
  }

  lemma DialerGood(s: State, pc: PC, o: Oracle)
    requires Context(s, pc, o) && pc.Dialer?
    ensures GoodEffect(s, ThreadEffect(s, pc, o))
  {
    if pc.d.DCas? || pc.d.DRelease? || pc.d.DRequeue? {
      DialerWrites(s, pc, o);
    } else {
      DialerReads(s, pc, o);
    }
  }

  lemma DialerWrites(s: State, pc: PC, o: Oracle)
    requires Context(s, pc, o) && pc.Dialer? && (pc.d.DCas? || pc.d.DRelease? || pc.d.DRequeue?)
    ensures GoodEffect(s, ThreadEffect(s, pc, o))
  {
    assert RecOk(s.proxies[pc.d.sock]);
  }

  lemma DialerReads(s: State, pc: PC, o: Oracle)
    requires Context(s, pc, o) && pc.Dialer? && !pc.d.DCas? && !pc.d.DRelease? && !pc.d.DRequeue?
    ensures GoodEffect(s, ThreadEffect(s, pc, o))
  {
  }

  lemma SchedulerGood(s: State, pc: PC, o: Oracle)
    requires Context(s, pc, o) && !pc.Validator? && !pc.GetAny? && !pc.StillGood? && !pc.GetStr? && !pc.Dialer?
    ensures GoodEffect(s, ThreadEffect(s, pc, o))
  {
    match pc
    case Spawner(_) => SpawnerGood(s, pc, o);
    case Conductor(_) => ConductorGood(s, pc, o);
    case Finished(_) =>
    case _ => FeederGood(s, pc, o);
  }

  lemma SpawnerGood(s: State, pc: PC, o: Oracle)
    requires Context(s, pc, o) && pc.Spawner?
    ensures GoodEffect(s, ThreadEffect(s, pc, o))
  {
  }

  lemma ConductorGood(s: State, pc: PC, o: Oracle)
    requires Context(s, pc, o) && pc.Conductor?
    ensures GoodEffect(s, ThreadEffect(s, pc, o))
  {
  }

  lemma FeederGood(s: State, pc: PC, o: Oracle)
    requires Context(s, pc, o) && (pc.Recycler? || pc.Loader?)
    ensures GoodEffect(s, ThreadEffect(s, pc, o))
  {
  }

  /** What every thread but a validator does: no verdict, no count of checks or
      validations, and nothing written to a record but its lock. */
  predicate Plain(s: State, e: Effect)
    requires OpOk(s, e.op)
  {
    && (e.op.Write? ==> e.op.rec == s.proxies[e.op.sock].(locked := e.op.rec.locked))
    && !e.op.CountCheck? && !e.op.CountValid? && !e.op.PushValid?
    && !e.pc.Validator?
    && (e.born.Some? ==> e.born == Some(Spawner(JCheck)) || (e.born.value.Validator? && e.born.value.v.Cas?))
  }

  lemma DispenserPlain(s: State, pc: PC, o: Oracle)
    requires PcOk(pc, |s.proxies|) && OpOk(s, ThreadEffect(s, pc, o).op)
    requires pc.GetAny? || pc.StillGood? || pc.GetStr?
    ensures Plain(s, ThreadEffect(s, pc, o))
  {
  }

  lemma DialerPlain(s: State, pc: PC, o: Oracle)
    requires PcOk(pc, |s.proxies|) && OpOk(s, ThreadEffect(s, pc, o).op) && pc.Dialer?
    ensures Plain(s, ThreadEffect(s, pc, o))
  {
  }

  lemma SchedulerPlain(s: State, pc: PC, o: Oracle)
    requires PcOk(pc, |s.proxies|) && OpOk(s, ThreadEffect(s, pc, o).op)
    requires !pc.Validator? && !pc.GetAny? && !pc.StillGood? && !pc.GetStr? && !pc.Dialer?
    ensures Plain(s, ThreadEffect(s, pc, o))
  {
  }

  lemma OthersPlain(s: State, pc: PC, o: Oracle)
    requires PcOk(pc, |s.proxies|) && OpOk(s, ThreadEffect(s, pc, o).op) && !pc.Validator?
    ensures Plain(s, ThreadEffect(s, pc, o))
  {
    match pc
    case GetAny(_, _) => DispenserPlain(s, pc, o);
    case StillGood(_, _, _, _) => DispenserPlain(s, pc, o);
    case GetStr(_, _) => DispenserPlain(s, pc, o);
    case Dialer(_, _, _, _) => DialerPlain(s, pc, o);
    case _ => SchedulerPlain(s, pc, o);
  }

  // ---------------------------------------------------------------- everybody else

  /** s' comes after s: records evolve, and the clock, the close and Pending go one way. */
  ghost predicate Later(s: State, s': State) {
    && |s.proxies| <= |s'.proxies|
    && (forall p :: 0 <= p < |s.proxies| ==> Evolves(s.proxies[p], s'.proxies[p]))
    && (s.closed ==> s'.closed)
    && s.now <= s'.now
    && |s.pending| <= |s'.pending|
  }

  lemma PerformIsLater(s: State, op: Op)
    requires OpOk(s, op) && (op.Write? ==> Evolves(s.proxies[op.sock], op.rec))
    ensures Later(s, Perform(s, op))
  {
  }

  lemma LaterTransitive(s0: State, s1: State, s2: State)
    requires Later(s0, s1) && Later(s1, s2)
    ensures Later(s0, s2)
  {
    forall p | 0 <= p < |s0.proxies| ensures Evolves(s0.proxies[p], s2.proxies[p]) {
      assert Evolves(s0.proxies[p], s1.proxies[p]) && Evolves(s1.proxies[p], s2.proxies[p]);
    }
  }

  lemma ProvenStays(s: State, s': State, p: nat)
    requires Later(s, s') && p < |s.proxies| && Proven(s.proxies[p])
    ensures Proven(s'.proxies[p]) && s'.proxies[p].Protocol() == s.proxies[p].Protocol()
    ensures s'.proxies[p].endpoint == s.proxies[p].endpoint
  {
    assert Evolves(s.proxies[p], s'.proxies[p]);
  }

  /** Later on, with the record it has locked untouched, a thread still knows what it knew. */
  lemma KnowledgeStays(s: State, s': State, pc: PC)
    requires Later(s, s') && Knows(s, pc)
    requires Held(pc).Some? && Held(pc).value < |s.proxies| ==> s'.proxies[Held(pc).value] == s.proxies[Held(pc).value]
    ensures Knows(s', pc)
  {
    match pc
    case Validator(p, e, v) => AloneStays(s, s', p, e, v);
    case StillGood(_, p, _, _) => ProvenStays(s, s', p);
    case Dialer(_, _, _, d) => DialerStays(s, s', pc);
    case Finished(out) => OutcomeStays(s, s', out);
    case GetAny(_, g) =>
      if g.Exit? && g.found.Some? {
        ProvenStays(s, s', g.found.value);
      }
    case GetStr(_, r) =>
      if r.StrExit? {
        ProvenStays(s, s', r.sock);
      }
    case _ =>
  }

  lemma AloneStays(s: State, s': State, p: nat, e: Proxy, v: VStage)
    requires Later(s, s') && p < |s.proxies|
    requires v.Cas? || (AsIfAlone(e, s.proxies[p], v, s.closed) && s'.proxies[p] == s.proxies[p])
    ensures p < |s'.proxies| && (v.Cas? || AsIfAlone(e, s'.proxies[p], v, s'.closed))
  {
  }

  lemma DialerStays(s: State, s': State, pc: PC)
    requires Later(s, s') && pc.Dialer? && Knows(s, pc)
    requires Held(pc).Some? ==> s'.proxies[Held(pc).value] == s.proxies[Held(pc).value]
    ensures Knows(s', pc)
  {
    if pc.d.DGot? {
      if pc.d.found.Some? {
        ProvenStays(s, s', pc.d.found.value);
      }
    } else if !pc.d.DEnter? && !pc.d.DHead? && !pc.d.DPop? {
      ProvenStays(s, s', pc.d.sock);
    }
  }

  lemma OutcomeStays(s: State, s': State, out: Outcome)
    requires Later(s, s') && Knows(s, Finished(out))
    ensures Knows(s', Finished(out))
  {
    match out
    case GotProxy(found) =>
      if found.Some? {
        ProvenStays(s, s', found.value);
      }
    case GotEndpoint(_, p, _) => ProvenStays(s, s', p);
    case GotConn(p, _, _) => ProvenStays(s, s', p);
    case _ =>
  }

  lemma ListsStayTyped(s: State, op: Op)
    requires OpOk(s, op) && TypedLists(s) && Later(s, Perform(s, op))
    requires op.PushValid? || op.Requeue? ==> ProvenAs(s.proxies, op.sock, op.proto)
    ensures TypedLists(Perform(s, op))
  {
    var s' := Perform(s, op);
    forall k: Protocol, i | k != ProtoNull && 0 <= i < |s'.valids.Get(k)|
      ensures ProvenAs(s'.proxies, s'.valids.Get(k)[i], k)
    {
      var p := s'.valids.Get(k)[i];
      ListedBefore(s, op, k, i);
      ProvenStays(s, s', p);
    }
  }

  /** What an operation does to the list of protocol k. */
  lemma ListAfter(s: State, op: Op, k: Protocol)
    requires OpOk(s, op) && k != ProtoNull
    ensures Perform(s, op).valids.Get(k)
         == if (op.PushValid? || op.Requeue?) && op.proto == k then s.valids.Get(k) + [op.sock]
            else if op == PopValid(k) then s.valids.Get(k)[1..]
            else s.valids.Get(k)
  {
  }

  /** An entry of a list was there before the operation, or is the one it pushed. */
  lemma ListedBefore(s: State, op: Op, k: Protocol, i: nat)
    requires OpOk(s, op) && TypedLists(s) && k != ProtoNull && i < |Perform(s, op).valids.Get(k)|
    requires op.PushValid? || op.Requeue? ==> ProvenAs(s.proxies, op.sock, op.proto)
    ensures ProvenAs(s.proxies, Perform(s, op).valids.Get(k)[i], k)
  {
    ListAfter(s, op, k);
    var list := s.valids.Get(k);
    var j := if op == PopValid(k) then i + 1 else i;
    if j < |list| {
      assert ProvenAs(s.proxies, list[j], k);
    }
  }
}
