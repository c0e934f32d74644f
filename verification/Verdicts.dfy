/** What a verdict of validate() rests on: the answers of the network in the
    steps of the very call that gives it. */
module Verdicts {
  import opened Proto
  import opened Machine
  import opened Meters
  import opened Facts
  import opened Runs
  import opened Histories
  import opened Sections

  /** At step i thread t is about to check record p over protocol k. */
  predicate AsksAt(h: History, i: nat, t: nat, p: nat, k: Protocol)
    requires h.Shaped()
  {
    && IsStepOf(h, i, t) && t < |h.states[i].threads| && h.states[i].threads[t].Validator?
    && h.states[i].threads[t].sock == p && h.states[i].threads[t].v.Probe? && h.states[i].threads[t].v.proto == k
  }

  /** And the network says yes. */
  predicate SucceedsAt(h: History, i: nat, t: nat, p: nat, k: Protocol)
    requires h.Shaped()
  {
    AsksAt(h, i, t, p, k) && h.acts[i].o.yes
  }

  /** It does so before state n. */
  predicate Asked(h: History, n: nat, t: nat, p: nat, k: Protocol)
    requires h.Shaped()
  {
    exists i :: 0 <= i < n && AsksAt(h, i, t, p, k)
  }

  predicate Succeeded(h: History, n: nat, t: nat, p: nat, k: Protocol)
    requires h.Shaped()
  {
    exists i :: 0 <= i < n && SucceedsAt(h, i, t, p, k)
  }

  /** The protocols checked, and those of them that worked, before state n. */
  datatype Answers = Answers(asked: set<Protocol>, won: set<Protocol>) {
    function With(k: Protocol, yes: bool): Answers {
      Answers(asked + {k}, if yes then won + {k} else won)
    }
  }

  function Heard(h: History, t: nat, p: nat, n: nat): Answers
    requires h.Shaped() && n <= |h.acts|
  {
    if n == 0 then Answers({}, {})
    else
      var before := Heard(h, t, p, n - 1);
      var s := h.states[n - 1];
      if IsStepOf(h, n - 1, t) && t < |s.threads| && s.threads[t].Validator? && s.threads[t].sock == p
         && s.threads[t].v.Probe?
      then before.With(s.threads[t].v.proto, h.acts[n - 1].o.yes) else before
  }

  lemma {:induction false} HeardAre(h: History, t: nat, p: nat, n: nat, k: Protocol)
    requires h.Shaped() && n <= |h.acts|
    ensures k in Heard(h, t, p, n).asked <==> Asked(h, n, t, p, k)
    ensures k in Heard(h, t, p, n).won <==> Succeeded(h, n, t, p, k)
  {
    if n > 0 {
      HeardAre(h, t, p, n - 1, k);
      assert AsksAt(h, n - 1, t, p, k) ==> k in Heard(h, t, p, n).asked;
      assert SucceedsAt(h, n - 1, t, p, k) ==> k in Heard(h, t, p, n).won;
    }
  }

  /** The record has no protocol before the first success, and then one that worked. */
  predicate Fits(r: Proxy, won: set<Protocol>) {
    if r.Protocol() == ProtoNull then won == {} else r.Protocol() in won
  }

  /** A call that comes to judge the record has asked for all there is to ask. */
  predicate AskedAll(e: Proxy, a: Answers) {
    a.asked == if e.Protocol() == ProtoNull then {ProtoSOCKS4, ProtoSOCKS4a, ProtoSOCKS5} else {e.Protocol()}
  }

  /** What the answers so far say about the record r of a call that found it as e and stands at v. */
  predicate Explained(e: Proxy, r: Proxy, v: VStage, a: Answers) {
    match v
    case Gate => a == Answers({}, {})
    case Limits => a == Answers({}, {})
    case Try(todo, _) => e.Protocol() == ProtoNull && a.asked == TRIED - todo && Fits(r, a.won)
    case Probe(proto, todo, first, _) =>
      if first then
        e.Protocol() == ProtoNull && proto !in todo && a.asked == TRIED - todo - {proto} && Fits(r, a.won)
      else e.Protocol() == proto != ProtoNull && a == Answers({}, {})
    case Count(proto, todo, first, _, passed) =>
      if first then
        && e.Protocol() == ProtoNull && a.asked == TRIED - todo
        && (if passed then proto in a.won && (r.Protocol() != ProtoNull ==> r.Protocol() in a.won)
            else Fits(r, a.won))
      else e.Protocol() == proto != ProtoNull && a == Answers({proto}, if passed then {proto} else {})
    case Fix(proto, todo, _) =>
      && e.Protocol() == ProtoNull && a.asked == TRIED - todo
      && proto in a.won && (r.Protocol() != ProtoNull ==> r.Protocol() in a.won)
    case Judge(_) => AskedAll(e, a) && Fits(r, a.won)
    case MarkBad(_) => AskedAll(e, a) && a.won == {}
    case Release(verdict) =>
      (match verdict
       case Good => AskedAll(e, a) && r.Protocol() in a.won
       case Bad => AskedAll(e, a) && a.won == {}
       case Limited => a == Answers({}, {})
       case _ => true)
    case _ => AskedAll(e, a) && r.Protocol() in a.won
  }

  /** The answers after one step of the call. */
  function Then(v: VStage, o: Oracle, a: Answers): Answers {
    if v.Probe? then a.With(v.proto, o.yes) else a
  }

  lemma CheckingExplained(s: State, p: nat, e: Proxy, v: VStage, o: Oracle, a: Answers)
    requires p < |s.proxies| && AsIfAlone(e, s.proxies[p], v, s.closed) && RecOk(s.proxies[p])
    requires Explained(e, s.proxies[p], v, a) && OracleOk(s, Validator(p, e, v), o)
    requires v.Gate? || v.Limits? || v.Try? || v.Fix?
    ensures var f := ValidatorEffect(s, p, e, v, o);
            f.pc.Validator? && Explained(e, After(s.proxies[p], f.op), f.pc.v, Then(v, o, a))
  {
    if v.Try? {
      assert TRIED - v.todo == TRIED - (v.todo - {o.proto}) - {o.proto} || v.todo == {};
    }
  }

  lemma ProbingExplained(s: State, p: nat, e: Proxy, v: VStage, o: Oracle, a: Answers)
    requires p < |s.proxies| && AsIfAlone(e, s.proxies[p], v, s.closed) && RecOk(s.proxies[p])
    requires Explained(e, s.proxies[p], v, a) && (v.Probe? || v.Count?)
    ensures var f := ValidatorEffect(s, p, e, v, o);
            f.pc.Validator? && Explained(e, After(s.proxies[p], f.op), f.pc.v, Then(v, o, a))
  {
    if v.Probe? && v.first {
      assert TRIED - v.todo - {v.proto} + {v.proto} == TRIED - v.todo;
    }
  }

  lemma JudgingExplained(s: State, p: nat, e: Proxy, v: VStage, o: Oracle, a: Answers)
    requires p < |s.proxies| && AsIfAlone(e, s.proxies[p], v, s.closed) && RecOk(s.proxies[p])
    requires Explained(e, s.proxies[p], v, a)
    requires !v.Gate? && !v.Limits? && !v.Try? && !v.Fix? && !v.Probe? && !v.Count?
    ensures var f := ValidatorEffect(s, p, e, v, o);
            f.pc.Validator? ==> Explained(e, After(s.proxies[p], f.op), f.pc.v, Then(v, o, a))
  {
  }

  lemma StepExplained(s: State, p: nat, e: Proxy, v: VStage, o: Oracle, a: Answers)
    requires p < |s.proxies| && AsIfAlone(e, s.proxies[p], v, s.closed) && RecOk(s.proxies[p])
    requires Explained(e, s.proxies[p], v, a) && OracleOk(s, Validator(p, e, v), o)
    ensures var f := ValidatorEffect(s, p, e, v, o);
            f.pc.Validator? ==> Explained(e, After(s.proxies[p], f.op), f.pc.v, Then(v, o, a))
  {
    if v.Gate? || v.Limits? || v.Try? || v.Fix? {
      CheckingExplained(s, p, e, v, o, a);
    } else if v.Probe? || v.Count? {
      ProbingExplained(s, p, e, v, o, a);
    } else {
      JudgingExplained(s, p, e, v, o, a);
    }
  }

  /** The effect of a validator's step, on its own counter and its record. */
  lemma OwnStep(s: State, t: nat, o: Oracle, p: nat)
    requires WellFormed(s) && Enabled(s, Step(t, o)) && s.threads[t].Validator? && s.threads[t].sock == p
    ensures var s', f := Next(s, Step(t, o)), ThreadEffect(s, s.threads[t], o);
            && t < |s'.threads| && s'.threads[t] == f.pc
            && p < |s.proxies| && p < |s'.proxies| && s'.proxies[p] == After(s.proxies[p], f.op)
  {
    EffectPcOk(s, t, o);
    var Validator(_, e, v) := s.threads[t];
    ValidatorTouches(s, p, e, v, o);
  }

  lemma OneStepExplained(h: History, t: nat, p: nat, e: Proxy, i: nat)
    requires Genuine(h) && i < |h.acts| && Inside(h.states[i], t, p, e) && Inside(h.states[i + 1], t, p, e)
    requires p < |h.states[i].proxies|
    requires Explained(e, h.states[i].proxies[p], h.states[i].threads[t].v, Heard(h, t, p, i))
    ensures p < |h.states[i + 1].proxies|
    ensures Explained(e, h.states[i + 1].proxies[p], h.states[i + 1].threads[t].v, Heard(h, t, p, i + 1))
  {
    var s := h.states[i];
    InvAt(h, i);
    assert Knows(s, s.threads[t]) && RecOk(s.proxies[p]);
    assert StepAt(h, i);
    if IsStepOf(h, i, t) {
      OwnStep(s, t, h.acts[i].o, p);
      StepExplained(s, p, e, s.threads[t].v, h.acts[i].o, Heard(h, t, p, i));
    } else {
      OtherLeavesRecordAlone(s, h.acts[i], t, p);
    }
  }

  /** As long as a call that began after the lock is inside, its record is explained by the answers it has heard. */
  lemma {:induction false} StageExplained(h: History, t: nat, p: nat, e: Proxy, n: nat)
    requires Genuine(h) && Inside(h.states[0], t, p, e) && h.states[0].threads[t].v == Gate
    requires n <= |h.acts| && Inside(h.states[n], t, p, e)
    requires forall j :: 0 <= j <= n ==> Inside(h.states[j], t, p, e)
    ensures p < |h.states[n].proxies|
    ensures Explained(e, h.states[n].proxies[p], h.states[n].threads[t].v, Heard(h, t, p, n))
  {
    if n == 0 {
      assert PcOk(h.states[0].threads[t], |h.states[0].proxies|);
    } else {
      StageExplained(h, t, p, e, n - 1);
      OneStepExplained(h, t, p, e, n - 1);
    }
  }

  /** A verdict is what the network said. A call that releases its record as good
      had a check over the record's protocol succeed; one that releases it as bad
      had none succeed; and both have checked all three SOCKS protocols on a
      record without a protocol, and that protocol alone on one that has one. */
  lemma VerdictIsEarned(h: History, t: nat, p: nat, e: Proxy, i: nat, verdict: Verdict)
    requires Genuine(h) && Inside(h.states[0], t, p, e) && h.states[0].threads[t].v == Gate
    requires ReleasesWith(h, i, t, p, e, verdict) && (verdict == Good || verdict == Bad)
    ensures verdict == Good ==> Succeeded(h, i, t, p, h.states[i].proxies[p].Protocol())
    ensures verdict == Bad ==> forall k :: !Succeeded(h, i, t, p, k)
    ensures forall k :: Asked(h, i, t, p, k) <==>
              if e.Protocol() == ProtoNull then k == ProtoSOCKS4 || k == ProtoSOCKS4a || k == ProtoSOCKS5
              else k == e.Protocol()
  {
    InsideSoFar(h, t, p, e, i);
    StageExplained(h, t, p, e, i);
    forall k
      ensures k in Heard(h, t, p, i).asked <==> Asked(h, i, t, p, k)
      ensures k in Heard(h, t, p, i).won <==> Succeeded(h, i, t, p, k)
    {
      HeardAre(h, t, p, i, k);
    }
  }
}
