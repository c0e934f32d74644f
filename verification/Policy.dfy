/** What stands behind a proxy that is handed out: over its whole history, when
    it was validated, when its failures were counted and against which limit,
    and when its age was judged and by which window. */
module Policy {
  import opened Proto
  import opened Machine
  import opened Meters
  import opened Ownership
  import opened Facts
  import opened Invariant
  import opened Runs
  import opened Histories

  // ---------------------------------------------------------------- stamps

  /** What a step may do to the tally and the stamp of a record: good() counts one
      and leaves the stamp to come, and only that stamp is ever written, with the time of the step. */
  predicate Dates(s: State, pc: PC, e: Effect)
    requires OpOk(s, e.op)
  {
    && (e.op.Write? ==>
          var r, r' := s.proxies[e.op.sock], e.op.rec;
          && (r'.lastValidated == r.lastValidated || (Stamping(pc, e.op.sock) && r'.lastValidated == s.now))
          && (r'.timesValidated == r.timesValidated || Stamping(e.pc, e.op.sock)))
    && (pc.Validator? && pc.v.Stamp? ==>
          e.op.Write? && e.op.sock == pc.sock && e.op.rec.lastValidated == s.now)
  }

  /** Between good()'s count and its stamp. */
  predicate Stamping(pc: PC, p: nat) {
    pc.Validator? && pc.v.Stamp? && pc.sock == p
  }

  lemma ValidatorDates(s: State, pc: PC, o: Oracle)
    requires PcOk(pc, |s.proxies|) && OpOk(s, ThreadEffect(s, pc, o).op) && pc.Validator?
    ensures Dates(s, pc, ThreadEffect(s, pc, o))
  {
  }

  lemma StepDates(s: State, pc: PC, o: Oracle)
    requires PcOk(pc, |s.proxies|) && OpOk(s, ThreadEffect(s, pc, o).op)
    ensures Dates(s, pc, ThreadEffect(s, pc, o))
  {
    if pc.Validator? {
      ValidatorDates(s, pc, o);
    } else {
      OthersPlain(s, pc, o);
    }
  }

  /** No stamp lies in the future. */
  ghost predicate NotAhead(s: State) {
    0 <= s.now && forall p :: 0 <= p < |s.proxies| ==> s.proxies[p].lastValidated <= s.now
  }

  lemma PerformKeepsClock(s: State, op: Op)
    requires OpOk(s, op)
    ensures Perform(s, op).now == s.now
  {
  }

  lemma ApplyNotAhead(s: State, t: nat, e: Effect)
    requires NotAhead(s) && t < |s.threads| && OpOk(s, e.op) && Dates(s, s.threads[t], e)
    ensures NotAhead(Apply(s, t, e))
  {
    PerformKeepsClock(s, e.op);
  }

  lemma NextNotAhead(s: State, a: Action)
    requires Inv(s) && Enabled(s, a) && NotAhead(s)
    ensures NotAhead(Next(s, a))
  {
    if a.Step? {
      EffectPcOk(s, a.t, a.o);
      StepDates(s, s.threads[a.t], a.o);
      ApplyNotAhead(s, a.t, ThreadEffect(s, s.threads[a.t], a.o));
    }
  }

  lemma StepNotAhead(s: State, a: Action, s': State)
    requires Inv(s) && NotAhead(s) && Follows(s, a, s')
    ensures NotAhead(s')
  {
    NextNotAhead(s, a);
  }

  lemma {:induction false} HistoryNotAhead(h: History, i: nat)
    requires Genuine(h) && NotAhead(h.states[0]) && i <= |h.acts|
    ensures NotAhead(h.states[i])
  {
    if i > 0 {
      HistoryNotAhead(h, i - 1);
      InvAt(h, i - 1);
      StepNotAhead(h.states[i - 1], h.acts[i - 1], h.states[i]) by {
        assert StepAt(h, i - 1);
      }
    }
  }

  /** In every reachable state each proxy was last validated now or earlier. */
  lemma NeverFromTheFuture(s: State, p: nat)
    requires Reachable(s) && p < |s.proxies|
    ensures s.proxies[p].lastValidated <= s.now
  {
    var now: nat, acts :| WellFormed(Initial(now)) && Legal(Initial(now), acts) && s == Exec(Initial(now), acts);
    InitialInv(now);
    var h := HistoryOf(Initial(now), acts);
    HistoryNotAhead(h, |h.acts|);
  }

  // ---------------------------------------------------------------- every stamp is a validation's

  /** Step g is the stamp of a successful validation of p, after its good(), at this time. */
  predicate StampedAt(h: History, g: nat, p: nat, time: int)
    requires h.Shaped()
  {
    && g < |h.acts| && h.acts[g].Step?
    && var s, t := h.states[g], h.acts[g].t;
       && t < |s.threads| && Stamping(s.threads[t], p) && s.now == time
       && p < |s.proxies| && s.proxies[p].timesValidated == s.threads[t].entry.timesValidated + 1
       && p < |h.states[g + 1].proxies| && h.states[g + 1].proxies[p].lastValidated == time
  }

  ghost predicate Dated(h: History, p: nat)
    requires h.Shaped() && p < |h.Last().proxies|
  {
    exists g :: StampedAt(h, g, p, h.Last().proxies[p].lastValidated)
  }

  ghost predicate BeingStamped(s: State, p: nat) {
    exists t :: 0 <= t < |s.threads| && Stamping(s.threads[t], p)
  }

  /** Each record bears the stamp of a validation, or has none yet. */
  ghost predicate AllDated(h: History)
    requires h.Shaped()
  {
    forall p :: 0 <= p < |h.Last().proxies| ==>
      h.Last().proxies[p].timesValidated == 0 || BeingStamped(h.Last(), p) || Dated(h, p)
  }

  lemma StampStays(h: History, p: nat)
    requires h.Shaped() && h.acts != [] && p < |h.Front().Last().proxies| && p < |h.Last().proxies|
    requires Dated(h.Front(), p) && h.Last().proxies[p].lastValidated == h.Front().Last().proxies[p].lastValidated
    ensures Dated(h, p)
  {
    var front, time := h.Front(), h.Last().proxies[p].lastValidated;
    var g :| StampedAt(front, g, p, time);
    assert StampedAt(h, g, p, time);
  }

  /** How record p and its stamping thread come out of one step of thread t. */
  lemma StampMoves(s: State, t: nat, e: Effect, p: nat)
    requires t < |s.threads| && OpOk(s, e.op) && Dates(s, s.threads[t], e) && p < |Perform(s, e.op).proxies|
    ensures var s' := Apply(s, t, e);
            if p >= |s.proxies| then s'.proxies[p].timesValidated == 0
            else
              && (Stamping(s.threads[t], p) ==> s'.proxies[p].lastValidated == s.now)
              && (s'.proxies[p].lastValidated == s.proxies[p].lastValidated || Stamping(s.threads[t], p))
              && (s'.proxies[p].timesValidated == s.proxies[p].timesValidated || Stamping(s'.threads[t], p))
  {
  }

  lemma StepAllDated(h: History)
    requires Genuine(h) && h.acts != [] && AllDated(h.Front()) && h.acts[|h.acts| - 1].Step?
    ensures AllDated(h)
  {
    FrontIsGenuine(h);
    forall p | 0 <= p < |h.Last().proxies|
      ensures h.Last().proxies[p].timesValidated == 0 || BeingStamped(h.Last(), p) || Dated(h, p)
    {
      RecordDated(h, p);
    }
  }

  /** Stamped by the step, about to be, under way by another thread, or dated before. */
  lemma RecordDated(h: History, p: nat)
    requires Genuine(h) && h.acts != [] && AllDated(h.Front()) && h.acts[|h.acts| - 1].Step?
    requires p < |h.Last().proxies|
    ensures h.Last().proxies[p].timesValidated == 0 || BeingStamped(h.Last(), p) || Dated(h, p)
  {
    var n := |h.acts| - 1;
    var s, t, o := h.states[n], h.acts[n].t, h.acts[n].o;
    FrontIsGenuine(h);
    InvAt(h, n);
    EffectPcOk(s, t, o);
    StepDates(s, s.threads[t], o);
    StampMoves(s, t, ThreadEffect(s, s.threads[t], o), p);
    if p < |s.proxies| {
      if Stamping(s.threads[t], p) {
        assert Knows(s, s.threads[t]);
        assert StampedAt(h, n, p, s.now);
      } else if Stamping(h.Last().threads[t], p) {
        assert BeingStamped(h.Last(), p);
      } else if BeingStamped(s, p) {
        var u :| 0 <= u < |s.threads| && Stamping(s.threads[u], p);
        NextKeepsOthers(s, h.acts[n], u);
        assert Stamping(h.Last().threads[u], p);
      } else if Dated(h.Front(), p) {
        StampStays(h, p);
      }
    }
  }

  lemma OutsideAllDated(h: History)
    requires Genuine(h) && h.acts != [] && AllDated(h.Front()) && !h.acts[|h.acts| - 1].Step?
    ensures AllDated(h)
  {
    var n := |h.acts| - 1;
    var s := h.states[n];
    FrontIsGenuine(h);
    assert h.Last().proxies == s.proxies;
    forall p | 0 <= p < |h.Last().proxies|
      ensures h.Last().proxies[p].timesValidated == 0 || BeingStamped(h.Last(), p) || Dated(h, p)
    {
      if BeingStamped(s, p) {
        var u :| 0 <= u < |s.threads| && Stamping(s.threads[u], p);
        NextKeepsOthers(s, h.acts[n], u);
        assert Stamping(h.Last().threads[u], p);
      } else if Dated(h.Front(), p) {
        StampStays(h, p);
      }
    }
  }

  lemma {:induction false} HistoryAllDated(h: History, birth: nat)
    requires Genuine(h) && h.states[0] == Initial(birth)
    ensures AllDated(h)
    decreases |h.acts|
  {
    if h.acts != [] {
      FrontIsGenuine(h);
      HistoryAllDated(h.Front(), birth);
      if h.acts[|h.acts| - 1].Step? {
        StepAllDated(h);
      } else {
        OutsideAllDated(h);
      }
    }
  }

  // ---------------------------------------------------------------- judged good

  /** The proxy a thread was handed by a getter and has not let go of. */
  function Carried(pc: PC): Option<nat> {
    match pc
    case GetAny(_, Exit(found)) => found
    case GetStr(_, StrExit(p)) => Some(p)
    case Dialer(_, _, _, DGot(found)) => found
    case Dialer(_, _, _, DCas(p)) => Some(p)
    case Dialer(_, _, _, DRequeue(p)) => Some(p)
    case Dialer(_, _, _, DHold(p)) => Some(p)
    case Dialer(_, _, _, DRelease(p, _)) => Some(p)
    case Dialer(_, _, _, DDial(p)) => Some(p)
    case Finished(GotProxy(found)) => found
    case Finished(GotEndpoint(_, p, _)) => Some(p)
    case Finished(GotConn(p, _, _)) => Some(p)
    case _ => None
  }

  /** stillGood() has found the failures of p within the limit, and has not looked at its age. */
  predicate HalfGood(pc: PC, p: nat) {
    pc.StillGood? && pc.sock == p && (pc.q.SgPeek? || pc.q.SgStale?)
  }

  /** stillGood() has accepted p, or a getter has already handed it out. */
  predicate AllGood(pc: PC, p: nat) {
    (pc.StillGood? && pc.sock == p && pc.q.SgKeep?) || Carried(pc) == Some(p)
  }

  /** Thread t is in stillGood() with the lock of p, which has been validated. */
  predicate Judging(s: State, t: nat, p: nat) {
    && t < |s.threads| && s.threads[t].StillGood? && Held(s.threads[t]) == Some(p)
    && p < |s.proxies| && s.proxies[p].locked && Proven(s.proxies[p])
  }

  /** The failures of p are within removeafter, or that policy is off. */
  predicate LimitAllows(s: State, p: nat) {
    p < |s.proxies| && (RemoveAfter(s) == -1 || s.proxies[p].timesBad <= RemoveAfter(s))
  }

  /** p was validated no longer than the stale time ago. */
  predicate YoungEnough(s: State, p: nat) {
    p < |s.proxies| && s.now - s.proxies[p].lastValidated <= s.opt.stale
  }

  /** At step c thread t counted the failures of p, under the lock, against the policy then in force; from
      then on it is past that test with p, to the end of the history. Step g stamped p before. */
  predicate CountedGood(h: History, t: nat, p: nat, g: nat, c: nat)
    requires h.Shaped()
  {
    && g < c && IsStepOf(h, c, t) && Judging(h.states[c], t, p) && LimitAllows(h.states[c], p)
    && StampedAt(h, g, p, h.states[c].proxies[p].lastValidated)
    && forall j :: c < j <= |h.acts| ==>
         t < |h.states[j].threads| && (HalfGood(h.states[j].threads[t], p) || AllGood(h.states[j].threads[t], p))
  }

  /** And at step a, under the same lock, it judged the age of p by the window then in force. */
  predicate Judgement(h: History, t: nat, p: nat, g: nat, c: nat, a: nat)
    requires h.Shaped()
  {
    && CountedGood(h, t, p, g, c)
    && c < a && IsStepOf(h, a, t) && Judging(h.states[a], t, p) && YoungEnough(h.states[a], p)
    && h.states[a].proxies[p] == h.states[c].proxies[p]
  }

  ghost predicate CountedNow(h: History, t: nat, p: nat, g: nat, c: nat)
    requires h.Shaped()
  {
    CountedGood(h, t, p, g, c) && p < |h.Last().proxies| && h.Last().proxies[p] == h.states[c].proxies[p]
  }

  ghost predicate JudgedNow(h: History, t: nat, p: nat, g: nat, c: nat, a: nat)
    requires h.Shaped()
  {
    && Judgement(h, t, p, g, c, a)
    && (t < |h.Last().threads| && h.Last().threads[t].StillGood? ==>
          p < |h.Last().proxies| && h.Last().proxies[p] == h.states[a].proxies[p])
  }

  /** What the stage of thread t says about its past. */
  ghost predicate Remembers(h: History, t: nat)
    requires h.Shaped() && t < |h.Last().threads|
  {
    var pc := h.Last().threads[t];
    && (forall p :: HalfGood(pc, p) ==> exists g, c :: CountedNow(h, t, p, g, c))
    && (forall p :: AllGood(pc, p) ==> exists g, c, a :: JudgedNow(h, t, p, g, c, a))
  }

  lemma CountedStays(h: History, t: nat, p: nat, g: nat, c: nat)
    requires h.Shaped() && h.acts != [] && CountedGood(h.Front(), t, p, g, c)
    requires t < |h.Last().threads| && (HalfGood(h.Last().threads[t], p) || AllGood(h.Last().threads[t], p))
    ensures CountedGood(h, t, p, g, c)
  {
    var front := h.Front();
    assert StampedAt(h, g, p, h.states[c].proxies[p].lastValidated);
    forall j | c < j <= |h.acts|
      ensures t < |h.states[j].threads| && (HalfGood(h.states[j].threads[t], p) || AllGood(h.states[j].threads[t], p))
    {
      if j < |h.acts| {
        assert h.states[j] == front.states[j];
      }
    }
  }

  lemma JudgementStays(h: History, t: nat, p: nat, g: nat, c: nat, a: nat)
    requires h.Shaped() && h.acts != [] && Judgement(h.Front(), t, p, g, c, a)
    requires t < |h.Last().threads| && AllGood(h.Last().threads[t], p)
    requires h.Last().threads[t].StillGood? ==> p < |h.Last().proxies| && h.Last().proxies[p] == h.states[a].proxies[p]
    ensures JudgedNow(h, t, p, g, c, a)
  {
    CountedStays(h, t, p, g, c);
  }

  /** The only ways into the two stages: the count of failures within the limit, and the age within the window. */
  predicate JudgesBy(s: State, pc: PC, e: Effect, p: nat) {
    && (HalfGood(e.pc, p) ==>
          e.op == Read && (HalfGood(pc, p) || (pc.StillGood? && Held(pc) == Some(p) && LimitAllows(s, p))))
    && (AllGood(e.pc, p) && AllGood(pc, p) ==> !e.pc.StillGood?)
    && (AllGood(e.pc, p) ==>
          AllGood(pc, p) || (e.op == Read && HalfGood(pc, p) && Held(pc) == Some(p) && YoungEnough(s, p)))
    && (e.born.Some? ==> !HalfGood(e.born.value, p) && !AllGood(e.born.value, p))
  }

  lemma StillGoodJudges(s: State, pc: PC, o: Oracle, p: nat)
    requires PcOk(pc, |s.proxies|) && OpOk(s, ThreadEffect(s, pc, o).op) && pc.StillGood?
    ensures JudgesBy(s, pc, ThreadEffect(s, pc, o), p)
  {
  }

  lemma CallersJudge(s: State, pc: PC, o: Oracle, p: nat)
    requires PcOk(pc, |s.proxies|) && OpOk(s, ThreadEffect(s, pc, o).op)
    requires pc.GetAny? || pc.GetStr? || pc.Dialer?
    ensures JudgesBy(s, pc, ThreadEffect(s, pc, o), p)
  {
  }

  lemma JudgeEffect(s: State, pc: PC, o: Oracle, p: nat)
    requires PcOk(pc, |s.proxies|) && OpOk(s, ThreadEffect(s, pc, o).op)
    ensures JudgesBy(s, pc, ThreadEffect(s, pc, o), p)
  {
    match pc
    case StillGood(_, _, _, _) => StillGoodJudges(s, pc, o, p);
    case GetAny(_, _) => CallersJudge(s, pc, o, p);
    case GetStr(_, _) => CallersJudge(s, pc, o, p);
    case Dialer(_, _, _, _) => CallersJudge(s, pc, o, p);
    case Validator(p', e, v) => ValidatorTouches(s, p', e, v, o);
    case _ =>
  }

  /** A proxy that stillGood() holds bears the stamp of a validation. */
  lemma HeldIsDated(h: History, t: nat, p: nat)
    requires Genuine(h) && AllDated(h) && t < |h.Last().threads|
    requires h.Last().threads[t].StillGood? && Held(h.Last().threads[t]) == Some(p)
    ensures Judging(h.Last(), t, p) && Dated(h, p)
  {
    var s := h.Last();
    InvAt(h, |h.acts|);
    HeldIsLocked(s, t, p);
    assert Knows(s, s.threads[t]);
    if BeingStamped(s, p) {
      var u :| 0 <= u < |s.threads| && Stamping(s.threads[u], p);
      MutualExclusion(s, t, u, p);
    }
  }

  /** The step that counts the failures begins the account. */
  lemma CountBegins(h: History, t: nat, p: nat) returns (g: nat)
    requires Genuine(h) && h.acts != [] && IsStepOf(h, |h.acts| - 1, t) && AllDated(h.Front())
    requires t < |h.Front().Last().threads| && t < |h.Last().threads| && HalfGood(h.Last().threads[t], p)
    requires h.Front().Last().threads[t].StillGood? && Held(h.Front().Last().threads[t]) == Some(p)
    requires LimitAllows(h.Front().Last(), p)
    ensures CountedGood(h, t, p, g, |h.acts| - 1)
  {
    var n := |h.acts| - 1;
    var front, time := h.Front(), h.states[n].proxies[p].lastValidated;
    FrontIsGenuine(h);
    HeldIsDated(front, t, p);
    g :| StampedAt(front, g, p, time);
    assert StampedAt(h, g, p, time);
  }

  lemma OwnStepHalf(h: History, t: nat, p: nat)
    requires Genuine(h) && h.acts != [] && IsStepOf(h, |h.acts| - 1, t) && AllDated(h.Front())
    requires t < |h.Front().Last().threads| && Remembers(h.Front(), t)
    requires t < |h.Last().threads| && HalfGood(h.Last().threads[t], p)
    ensures exists g, c :: CountedNow(h, t, p, g, c)
  {
    var n := |h.acts| - 1;
    FrontIsGenuine(h);
    InvAt(h, n);
    HalfByOwnStep(h.states[n], t, h.acts[n].o, p);
    if HalfGood(h.states[n].threads[t], p) {
      var g, c :| CountedNow(h.Front(), t, p, g, c);
      CountedStays(h, t, p, g, c);
      assert CountedNow(h, t, p, g, c);
    } else {
      var g := CountBegins(h, t, p);
      assert CountedNow(h, t, p, g, n);
    }
  }

  lemma HalfByOwnStep(s: State, t: nat, o: Oracle, p: nat)
    requires Inv(s) && Enabled(s, Step(t, o)) && t < |Next(s, Step(t, o)).threads|
    requires HalfGood(Next(s, Step(t, o)).threads[t], p)
    ensures Next(s, Step(t, o)).proxies == s.proxies
    ensures HalfGood(s.threads[t], p)
         || (s.threads[t].StillGood? && Held(s.threads[t]) == Some(p) && LimitAllows(s, p))
  {
    EffectPcOk(s, t, o);
    JudgeEffect(s, s.threads[t], o, p);
  }

  lemma OwnStepAll(h: History, t: nat, p: nat)
    requires Genuine(h) && h.acts != [] && IsStepOf(h, |h.acts| - 1, t)
    requires t < |h.Front().Last().threads| && Remembers(h.Front(), t)
    requires t < |h.Last().threads| && AllGood(h.Last().threads[t], p)
    ensures exists g, c, a :: JudgedNow(h, t, p, g, c, a)
  {
    var n := |h.acts| - 1;
    var front, s, o := h.Front(), h.states[n], h.acts[n].o;
    FrontIsGenuine(h);
    InvAt(h, n);
    EffectPcOk(s, t, o);
    JudgeEffect(s, s.threads[t], o, p);
    if AllGood(s.threads[t], p) {
      var g, c, a :| JudgedNow(front, t, p, g, c, a);
      JudgementStays(h, t, p, g, c, a);
    } else {
      var g, c :| CountedNow(front, t, p, g, c);
      HeldIsLocked(s, t, p);
      CountedStays(h, t, p, g, c);
      assert JudgedNow(h, t, p, g, c, n);
    }
  }

  /** Somebody else's action leaves thread t where it is, and what it holds as it is. */
  lemma BystanderStands(h: History, t: nat)
    requires Genuine(h) && h.acts != [] && !IsStepOf(h, |h.acts| - 1, t)
    requires t < |h.Front().Last().threads|
    ensures t < |h.Last().threads| && h.Last().threads[t] == h.Front().Last().threads[t]
    ensures Held(h.Last().threads[t]).Some? ==>
              var p := Held(h.Last().threads[t]).value;
              p < |h.Front().Last().proxies| && p < |h.Last().proxies|
              && h.Last().proxies[p] == h.Front().Last().proxies[p]
  {
    var n := |h.acts| - 1;
    var s := h.states[n];
    FrontIsGenuine(h);
    InvAt(h, n);
    NextKeepsOthers(s, h.acts[n], t);
    if Held(s.threads[t]).Some? {
      OtherLeavesRecordAlone(s, h.acts[n], t, Held(s.threads[t]).value);
    }
  }

  lemma BystanderHalf(h: History, t: nat, p: nat)
    requires Genuine(h) && h.acts != [] && !IsStepOf(h, |h.acts| - 1, t)
    requires t < |h.Front().Last().threads| && Remembers(h.Front(), t)
    requires t < |h.Last().threads| && HalfGood(h.Last().threads[t], p)
    ensures exists g, c :: CountedNow(h, t, p, g, c)
  {
    BystanderStands(h, t);
    var g, c :| CountedNow(h.Front(), t, p, g, c);
    CountedStays(h, t, p, g, c);
    assert CountedNow(h, t, p, g, c);
  }

  lemma BystanderAll(h: History, t: nat, p: nat)
    requires Genuine(h) && h.acts != [] && !IsStepOf(h, |h.acts| - 1, t)
    requires t < |h.Front().Last().threads| && Remembers(h.Front(), t)
    requires t < |h.Last().threads| && AllGood(h.Last().threads[t], p)
    ensures exists g, c, a :: JudgedNow(h, t, p, g, c, a)
  {
    BystanderStands(h, t);
    var g, c, a :| JudgedNow(h.Front(), t, p, g, c, a);
    JudgementStays(h, t, p, g, c, a);
  }

  /** A goroutine that has just begun has nothing to remember. */
  lemma NewThread(s: State, a: Action, t: nat, p: nat)
    requires WellFormed(s) && Enabled(s, a) && |s.threads| <= t < |Next(s, a).threads|
    ensures !HalfGood(Next(s, a).threads[t], p) && !AllGood(Next(s, a).threads[t], p)
  {
    if a.Step? {
      EffectPcOk(s, a.t, a.o);
      JudgeEffect(s, s.threads[a.t], a.o, p);
    }
  }

  /** One more action. */
  lemma NextRemembers(h: History, birth: nat, t: nat)
    requires Genuine(h) && h.states[0] == Initial(birth) && h.acts != []
    requires t < |h.Front().Last().threads| && Remembers(h.Front(), t)
    ensures t < |h.Last().threads| && Remembers(h, t)
  {
    var n := |h.acts| - 1;
    FrontIsGenuine(h);
    NextKeepsOthers(h.states[n], h.acts[n], t);
    HistoryAllDated(h.Front(), birth);
    var pc := h.Last().threads[t];
    forall p | HalfGood(pc, p) ensures exists g, c :: CountedNow(h, t, p, g, c) {
      if IsStepOf(h, n, t) {
        OwnStepHalf(h, t, p);
      } else {
        BystanderHalf(h, t, p);
      }
    }
    forall p | AllGood(pc, p) ensures exists g, c, a :: JudgedNow(h, t, p, g, c, a) {
      if IsStepOf(h, n, t) {
        OwnStepAll(h, t, p);
      } else {
        BystanderAll(h, t, p);
      }
    }
  }

  lemma {:induction false} HistoryRemembers(h: History, birth: nat, t: nat)
    requires Genuine(h) && h.states[0] == Initial(birth) && t < |h.Last().threads|
    ensures Remembers(h, t)
    decreases |h.acts|
  {
    if h.acts != [] {
      var n := |h.acts| - 1;
      FrontIsGenuine(h);
      if t < |h.states[n].threads| {
        HistoryRemembers(h.Front(), birth, t);
        NextRemembers(h, birth, t);
      } else {
        forall p ensures !HalfGood(h.Last().threads[t], p) && !AllGood(h.Last().threads[t], p) {
          NewThread(h.states[n], h.acts[n], t, p);
        }
      }
    }
  }

  // ---------------------------------------------------------------- what is handed out

  /** Every proxy a getter hands out, and every one a dialer dials through, was
      judged by the very goroutine that has it, since the last time it had none:
      under the proxy's lock its failures were within removeafter as it then was,
      its last validation was no older than the stale time as it then was, and
      that validation is a step of the history. */
  lemma HandedOutWasJudged(h: History, birth: nat, t: nat, p: nat, from: nat) returns (g: nat, c: nat, a: nat)
    requires Genuine(h) && h.states[0] == Initial(birth)
    requires t < |h.Last().threads| && Carried(h.Last().threads[t]) == Some(p)
    requires from <= |h.acts| && Unjudged(h.states[from], t, p)
    ensures from <= c && Judgement(h, t, p, g, c, a)
    ensures h.states[a].now - h.states[g].now <= h.states[a].opt.stale
  {
    HistoryRemembers(h, birth, t);
    assert AllGood(h.Last().threads[t], p);
    g, c, a :| JudgedNow(h, t, p, g, c, a);
    assert !Unjudged(h.states[from], t, p) || from <= c;
  }

  /** Thread t is not yet past the test of failures with p. */
  predicate Unjudged(s: State, t: nat, p: nat) {
    t < |s.threads| ==> !HalfGood(s.threads[t], p) && !AllGood(s.threads[t], p)
  }

  /** A getter has a proxy to hand out. */
  predicate HasProxy(pc: PC) {
    (pc.GetStr? && pc.r.StrExit?) || (pc.GetAny? && pc.g.Exit? && pc.g.found.Some?)
  }

  lemma OnlyKeepHandsOut(s: State, pc: PC, o: Oracle)
    requires PcOk(pc, |s.proxies|) && !HasProxy(pc) && HasProxy(ThreadEffect(s, pc, o).pc)
    ensures pc.StillGood? && pc.q.SgKeep? && Carried(ThreadEffect(s, pc, o).pc) == Some(pc.sock)
    ensures ThreadEffect(s, pc, o).op == Write(pc.sock, s.proxies[pc.sock].(locked := false))
  {
  }

  lemma NewHasNoProxy(s: State, a: Action, t: nat)
    requires WellFormed(s) && Enabled(s, a) && |s.threads| <= t < |Next(s, a).threads|
    ensures !HasProxy(Next(s, a).threads[t])
  {
    if a.Step? {
      EffectPcOk(s, a.t, a.o);
    }
  }

  /** A getter comes by a proxy in no other way than by the step in which
      stillGood() releases it, and the record is then what it was judged to be. */
  lemma DispensedAsJudged(h: History, birth: nat, t: nat, p: nat) returns (g: nat, c: nat, a: nat)
    requires Genuine(h) && h.states[0] == Initial(birth) && h.acts != []
    requires t < |h.Last().threads| && HasProxy(h.Last().threads[t]) && Carried(h.Last().threads[t]) == Some(p)
    requires t < |h.Front().Last().threads| ==> !HasProxy(h.Front().Last().threads[t])
    ensures var s := h.Front().Last();
            && Judgement(h.Front(), t, p, g, c, a)
            && t < |s.threads| && Held(s.threads[t]) == Some(p)
            && p < |s.proxies| && s.proxies[p] == h.states[a].proxies[p]
            && h.Last().proxies == s.proxies[p := s.proxies[p].(locked := false)]
  {
    var n := |h.acts| - 1;
    var s := h.states[n];
    FrontIsGenuine(h);
    if t >= |s.threads| {
      NewHasNoProxy(s, h.acts[n], t);
    }
    NextKeepsOthers(s, h.acts[n], t);
    EffectPcOk(s, t, h.acts[n].o);
    OnlyKeepHandsOut(s, s.threads[t], h.acts[n].o);
    HistoryRemembers(h.Front(), birth, t);
    assert AllGood(s.threads[t], p);
    g, c, a :| JudgedNow(h.Front(), t, p, g, c, a);
  }

  /** From state k on recycling is on and the limit of failures is b. */
  predicate KeepsLimit(h: History, k: nat, b: int)
    requires h.Shaped()
  {
    forall i :: k <= i <= |h.acts| ==> h.states[i].opt.recycle && h.states[i].opt.removeAfter == b
  }

  /** And the stale time is w. */
  predicate KeepsPolicy(h: History, k: nat, b: int, w: int)
    requires h.Shaped()
  {
    KeepsLimit(h, k, b) && forall i :: k <= i <= |h.acts| ==> h.states[i].opt.stale == w
  }

  /** Under a constant policy, a proxy handed out by a call begun since had at
      most b failures and a validation at most w old when it was judged. */
  lemma HandedOutWithinPolicy(h: History, birth: nat, t: nat, p: nat, k: nat, b: int, w: int)
    requires Genuine(h) && h.states[0] == Initial(birth) && k <= |h.acts| && KeepsPolicy(h, k, b, w) && b != -1
    requires |h.states[k].threads| <= t < |h.Last().threads| && Carried(h.Last().threads[t]) == Some(p)
    ensures exists g: nat, c: nat, a: nat ::
              && k <= c && Judgement(h, t, p, g, c, a)
              && h.states[c].proxies[p].timesBad <= b && h.states[a].now - h.states[g].now <= w
  {
    var g, c, a := HandedOutWasJudged(h, birth, t, p, k);
  }

  // ---------------------------------------------------------------- over the limit

  /** stillGood() on its way from the lock to the deletion from the map. */
  predicate Expelling(pc: PC, c: Caller, p: nat, todo: seq<Protocol>) {
    || pc == StillGood(c, p, todo, SgCount)
    || pc == StillGood(c, p, todo, SgLimit)
    || pc == StillGood(c, p, todo, SgDelete)
  }

  /** Step i deletes the proxy's endpoint from the map, and leaves stillGood() with no way but to reject it. */
  predicate ExpelledAt(h: History, i: nat, t: nat, c: Caller, p: nat, todo: seq<Protocol>)
    requires h.Shaped()
  {
    && IsStepOf(h, i, t) && p < |h.states[i].proxies|
    && h.states[i].proxies[p].endpoint !in h.states[i + 1].plot
    && t < |h.states[i + 1].threads| && h.states[i + 1].threads[t] == StillGood(c, p, todo, SgDrop)
  }

  /** One step on the way, with the limit at b and more failures than that. */
  predicate Expels(s: State, pc: PC, e: Effect, c: Caller, p: nat, todo: seq<Protocol>)
    requires p < |s.proxies|
  {
    if pc == StillGood(c, p, todo, SgDelete)
    then e == Do(MapDelete(s.proxies[p].endpoint), StillGood(c, p, todo, SgDrop))
    else Expelling(e.pc, c, p, todo)
  }

  lemma ExpelEffect(s: State, pc: PC, o: Oracle, c: Caller, p: nat, todo: seq<Protocol>)
    requires Expelling(pc, c, p, todo) && p < |s.proxies|
    requires RemoveAfter(s) != -1 && s.proxies[p].timesBad > RemoveAfter(s)
    requires PcOk(pc, |s.proxies|)
    ensures Expels(s, pc, ThreadEffect(s, pc, o), c, p, todo)
  {
  }

  /** What the first action of a history does to a thread on that way. */
  lemma ExpelGoesOn(h: History, t: nat, c: Caller, p: nat, todo: seq<Protocol>)
    requires Genuine(h) && h.acts != [] && t < |h.states[0].threads| && Expelling(h.states[0].threads[t], c, p, todo)
    requires p < |h.states[0].proxies| && RemoveAfter(h.states[0]) != -1
    requires h.states[0].proxies[p].timesBad > RemoveAfter(h.states[0])
    ensures || ExpelledAt(h, 0, t, c, p, todo)
            || (&& t < |h.states[1].threads| && Expelling(h.states[1].threads[t], c, p, todo)
                && p < |h.states[1].proxies| && h.states[1].proxies[p].timesBad == h.states[0].proxies[p].timesBad)
  {
    var s := h.states[0];
    assert StepAt(h, 0);
    if IsStepOf(h, 0, t) {
      EffectPcOk(s, t, h.acts[0].o);
      ExpelEffect(s, s.threads[t], h.acts[0].o, c, p, todo);
      CountingWritesNothing(s, s.threads[t], h.acts[0].o, c, p, todo);
    } else {
      OtherLeavesRecordAlone(s, h.acts[0], t, p);
    }
  }

  lemma CountingWritesNothing(s: State, pc: PC, o: Oracle, c: Caller, p: nat, todo: seq<Protocol>)
    requires Expelling(pc, c, p, todo) && PcOk(pc, |s.proxies|) && OpOk(s, ThreadEffect(s, pc, o).op)
    ensures Perform(s, ThreadEffect(s, pc, o).op).proxies == s.proxies
  {
  }

  /** With the limit at b throughout, a proxy with more failures whose lock
      stillGood() has taken is rejected, and first its endpoint leaves the map. */
  lemma {:induction false} OverLimitIsExpelled(h: History, t: nat, c: Caller, p: nat, todo: seq<Protocol>, b: int)
    requires Genuine(h) && KeepsLimit(h, 0, b) && b != -1
    requires t < |h.states[0].threads| && Expelling(h.states[0].threads[t], c, p, todo)
    requires p < |h.states[0].proxies| && h.states[0].proxies[p].timesBad > b
    ensures || (t < |h.Last().threads| && Expelling(h.Last().threads[t], c, p, todo))
            || exists i :: ExpelledAt(h, i, t, c, p, todo)
    decreases |h.acts|
  {
    if h.acts != [] {
      ExpelGoesOn(h, t, c, p, todo);
      if !ExpelledAt(h, 0, t, c, p, todo) {
        RestIsGenuine(h, 1);
        OverLimitIsExpelled(Rest(h, 1), t, c, p, todo, b);
        ExpelledLater(h, t, c, p, todo);
      }
    }
  }

  lemma ExpelledLater(h: History, t: nat, c: Caller, p: nat, todo: seq<Protocol>)
    requires h.Shaped() && h.acts != []
    ensures forall i: nat :: ExpelledAt(Rest(h, 1), i, t, c, p, todo) ==> ExpelledAt(h, i + 1, t, c, p, todo)
  {
  }

  /** stillGood() before its verdict on the failures. */
  predicate StillCounting(pc: PC, c: Caller, p: nat, todo: seq<Protocol>) {
    pc == StillGood(c, p, todo, SgCount) || pc == StillGood(c, p, todo, SgLimit)
  }

  /** At step i stillGood() finds the failures within limit b and goes on, having done nothing else till then. */
  predicate SparedAt(h: History, i: nat, t: nat, c: Caller, p: nat, todo: seq<Protocol>, b: int)
    requires h.Shaped()
  {
    && IsStepOf(h, i, t)
    && (forall j :: 0 <= j <= i ==> t < |h.states[j].threads| && StillCounting(h.states[j].threads[t], c, p, todo))
    && t < |h.states[i + 1].threads| && h.states[i + 1].threads[t] == StillGood(c, p, todo, SgPeek(b))
  }

  lemma SpareEffect(s: State, pc: PC, o: Oracle, c: Caller, p: nat, todo: seq<Protocol>)
    requires StillCounting(pc, c, p, todo) && p < |s.proxies| && PcOk(pc, |s.proxies|)
    requires RemoveAfter(s) != -1 && s.proxies[p].timesBad <= RemoveAfter(s)
    ensures var e := ThreadEffect(s, pc, o);
            e.pc == StillGood(c, p, todo, SgLimit) || e.pc == StillGood(c, p, todo, SgPeek(RemoveAfter(s)))
  {
  }

  lemma SpareGoesOn(h: History, t: nat, c: Caller, p: nat, todo: seq<Protocol>)
    requires Genuine(h) && h.acts != []
    requires t < |h.states[0].threads| && StillCounting(h.states[0].threads[t], c, p, todo)
    requires p < |h.states[0].proxies| && RemoveAfter(h.states[0]) != -1
    requires h.states[0].proxies[p].timesBad <= RemoveAfter(h.states[0])
    ensures || SparedAt(h, 0, t, c, p, todo, RemoveAfter(h.states[0]))
            || (&& t < |h.states[1].threads| && StillCounting(h.states[1].threads[t], c, p, todo)
                && p < |h.states[1].proxies| && h.states[1].proxies[p].timesBad == h.states[0].proxies[p].timesBad)
  {
    var s := h.states[0];
    assert StepAt(h, 0);
    if IsStepOf(h, 0, t) {
      EffectPcOk(s, t, h.acts[0].o);
      SpareEffect(s, s.threads[t], h.acts[0].o, c, p, todo);
      CountingWritesNothing(s, s.threads[t], h.acts[0].o, c, p, todo);
    } else {
      OtherLeavesRecordAlone(s, h.acts[0], t, p);
    }
  }

  /** The converse: with the limit at b throughout, a proxy with no more failures
      than that goes on to the limiter, and never comes near the deletion. */
  lemma {:induction false} WithinLimitIsSpared(h: History, t: nat, c: Caller, p: nat, todo: seq<Protocol>, b: int)
    requires Genuine(h) && KeepsLimit(h, 0, b) && b != -1
    requires t < |h.states[0].threads| && StillCounting(h.states[0].threads[t], c, p, todo)
    requires p < |h.states[0].proxies| && h.states[0].proxies[p].timesBad <= b
    ensures || (forall j :: 0 <= j <= |h.acts| ==>
                  t < |h.states[j].threads| && StillCounting(h.states[j].threads[t], c, p, todo))
            || exists i :: SparedAt(h, i, t, c, p, todo, b)
    decreases |h.acts|
  {
    if h.acts != [] {
      SpareGoesOn(h, t, c, p, todo);
      if !SparedAt(h, 0, t, c, p, todo, b) {
        RestIsGenuine(h, 1);
        WithinLimitIsSpared(Rest(h, 1), t, c, p, todo, b);
        SparedLater(h, t, c, p, todo, b);
      }
    }
  }

  lemma SparedLater(h: History, t: nat, c: Caller, p: nat, todo: seq<Protocol>, b: int)
    requires h.Shaped() && h.acts != []
    requires t < |h.states[0].threads| && StillCounting(h.states[0].threads[t], c, p, todo)
    ensures forall i: nat :: SparedAt(Rest(h, 1), i, t, c, p, todo, b) ==> SparedAt(h, i + 1, t, c, p, todo, b)
    ensures (forall j :: 0 <= j <= |Rest(h, 1).acts| ==>
               t < |Rest(h, 1).states[j].threads| && StillCounting(Rest(h, 1).states[j].threads[t], c, p, todo))
        ==> (forall j :: 0 <= j <= |h.acts| ==>
               t < |h.states[j].threads| && StillCounting(h.states[j].threads[t], c, p, todo))
  {
    var rest := Rest(h, 1);
    assert forall j :: 0 < j <= |h.acts| ==> h.states[j] == rest.states[j - 1];
    forall i: nat | SparedAt(rest, i, t, c, p, todo, b) ensures SparedAt(h, i + 1, t, c, p, todo, b) {
      forall j | 0 <= j <= i + 1
        ensures t < |h.states[j].threads| && StillCounting(h.states[j].threads[t], c, p, todo)
      {
        if j > 0 {
          assert h.states[j] == rest.states[j - 1];
        }
      }
    }
  }

  /** Where stillGood() was left with no way but to reject, it does: the lock is given back and no proxy handed out. */
  lemma ExpelledIsRejected(s: State, t: nat, o: Oracle, c: Caller, p: nat, todo: seq<Protocol>)
    requires Inv(s) && Enabled(s, Step(t, o)) && s.threads[t] == StillGood(c, p, todo, SgDrop)
    ensures var s' := Next(s, Step(t, o));
            && t < |s'.threads| && s'.threads[t] == Onward(c, todo) && Carried(s'.threads[t]) == None
            && p < |s'.proxies| && !s'.proxies[p].locked
  {
    EffectPcOk(s, t, o);
  }

  /** The two readings of the limit are its value in the state they are made in:
      only without a limit, or within it, does stillGood() go on to the age. */
  lemma LimitIsRemoveAfter(s: State, t: nat, o: Oracle, c: Caller, p: nat, todo: seq<Protocol>)
    requires Inv(s) && Enabled(s, Step(t, o)) && p < |s.proxies|
    requires s.threads[t] == StillGood(c, p, todo, SgCount) || s.threads[t] == StillGood(c, p, todo, SgLimit)
    ensures var s' := Next(s, Step(t, o));
            && t < |s'.threads|
            && (HalfGood(s'.threads[t], p) <==>
                  if s.threads[t].q.SgCount? then RemoveAfter(s) == -1 else s.proxies[p].timesBad <= RemoveAfter(s))
            && (HalfGood(s'.threads[t], p) ==> s'.threads[t].q == SgPeek(RemoveAfter(s)))
            && (s'.threads[t] == StillGood(c, p, todo, SgDelete) <==>
                  s.threads[t].q.SgLimit? && s.proxies[p].timesBad > RemoveAfter(s))
  {
    EffectPcOk(s, t, o);
  }

  /** A limit turned off between the two readings expels the proxy, whatever its failures. */
  lemma TurnedOffMeanwhile(s: State, t: nat, o: Oracle, c: Caller, p: nat, todo: seq<Protocol>)
    requires Inv(s) && Enabled(s, Step(t, o)) && p < |s.proxies|
    requires s.threads[t] == StillGood(c, p, todo, SgLimit) && !s.opt.recycle
    ensures t < |Next(s, Step(t, o)).threads|
    ensures Next(s, Step(t, o)).threads[t] == StillGood(c, p, todo, SgDelete)
  {
    LimitIsRemoveAfter(s, t, o, c, p, todo);
  }

  // ---------------------------------------------------------------- the count of stale proxies

  /** At step i stillGood() rejects a proxy for its age. */
  predicate RejectsStale(h: History, i: nat)
    requires h.Shaped() && i < |h.acts|
  {
    && h.acts[i].Step? && h.acts[i].t < |h.states[i].threads|
    && var s, pc := h.states[i], h.states[i].threads[h.acts[i].t];
       && pc.StillGood? && pc.q.SgStale? && pc.sock < |s.proxies|
       && s.now - s.proxies[pc.sock].lastValidated > s.opt.stale
  }

  function StaleRejections(h: History, n: nat): nat
    requires h.Shaped() && n <= |h.acts|
  {
    if n == 0 then 0 else StaleRejections(h, n - 1) + (if RejectsStale(h, n - 1) then 1 else 0)
  }

  /** The stale counter is touched by the rejection for age and by nothing else. */
  predicate CountsStale(s: State, pc: PC, e: Effect) {
    e.op.CountStale? <==>
      pc.StillGood? && pc.q.SgStale? && pc.sock < |s.proxies|
      && s.now - s.proxies[pc.sock].lastValidated > s.opt.stale
  }

  lemma StillGoodCountsStale(s: State, pc: PC, o: Oracle)
    requires PcOk(pc, |s.proxies|) && pc.StillGood?
    ensures CountsStale(s, pc, ThreadEffect(s, pc, o))
  {
  }

  lemma GettersCountNoStale(s: State, pc: PC, o: Oracle)
    requires PcOk(pc, |s.proxies|) && (pc.GetAny? || pc.GetStr? || pc.Dialer?)
    ensures CountsStale(s, pc, ThreadEffect(s, pc, o))
  {
  }

  lemma RestCountsNoStale(s: State, pc: PC, o: Oracle)
    requires PcOk(pc, |s.proxies|)
    requires !pc.StillGood? && !pc.GetAny? && !pc.GetStr? && !pc.Dialer?
    ensures CountsStale(s, pc, ThreadEffect(s, pc, o))
  {
  }

  lemma PerformCountsStale(s: State, op: Op)
    requires OpOk(s, op)
    ensures Perform(s, op).stats.stale == s.stats.stale + if op.CountStale? then 1 else 0
  {
  }

  lemma StepCountsStale(s: State, t: nat, o: Oracle)
    requires WellFormed(s) && Enabled(s, Step(t, o))
    ensures var pc := s.threads[t];
            Next(s, Step(t, o)).stats.stale
            == s.stats.stale
               + if pc.StillGood? && pc.q.SgStale? && pc.sock < |s.proxies|
                    && s.now - s.proxies[pc.sock].lastValidated > s.opt.stale then 1 else 0
  {
    EffectPcOk(s, t, o);
    var pc := s.threads[t];
    PerformCountsStale(s, ThreadEffect(s, pc, o).op);
    match pc
    case StillGood(_, _, _, _) => StillGoodCountsStale(s, pc, o);
    case GetAny(_, _) => GettersCountNoStale(s, pc, o);
    case GetStr(_, _) => GettersCountNoStale(s, pc, o);
    case Dialer(_, _, _, _) => GettersCountNoStale(s, pc, o);
    case _ => RestCountsNoStale(s, pc, o);
  }

  /** Stale counts exactly the proxies that were rejected for their age. */
  lemma {:induction false} StaleIsCounted(h: History, i: nat)
    requires Genuine(h) && i <= |h.acts|
    ensures h.states[i].stats.stale == h.states[0].stats.stale + StaleRejections(h, i)
  {
    if i > 0 {
      StaleIsCounted(h, i - 1);
      assert StepAt(h, i - 1);
      if h.acts[i - 1].Step? {
        StepCountsStale(h.states[i - 1], h.acts[i - 1].t, h.acts[i - 1].o);
      }
    }
  }
}
