/** Why a load can fail: proxyMap.add() finds the entry it has just made gone. */
module Loading {
  import opened Machine
  import opened Facts
  import opened Invariant
  import opened Lifecycle
  import opened Histories

  /** Action i takes the entry of this endpoint off the map: stillGood()
      deletes it, or the user clears the map. */
  predicate UnmapsAt(h: History, i: nat, endpoint: string)
    requires h.Shaped()
  {
    && i < |h.acts| && endpoint in h.states[i].plot && endpoint !in h.states[i + 1].plot
    && (h.acts[i].ClearMap? || (h.acts[i].Step? && Deletes(h.states[i], h.acts[i].t, endpoint)))
  }

  /** Thread t is at the deletion in stillGood(), on a record of this endpoint. */
  predicate Deletes(s: State, t: nat, endpoint: string) {
    && t < |s.threads| && s.threads[t].StillGood? && s.threads[t].q.SgDelete?
    && s.threads[t].sock < |s.proxies| && s.proxies[s.threads[t].sock].endpoint == endpoint
  }

  lemma DeletionEffect(s: State, pc: PC, o: Oracle)
    requires PcOk(pc, |s.proxies|) && ThreadEffect(s, pc, o).op.MapDelete?
    ensures pc.StillGood? && pc.q.SgDelete?
    ensures ThreadEffect(s, pc, o).op == MapDelete(s.proxies[pc.sock].endpoint)
  {
  }

  lemma PerformUnmaps(s: State, op: Op, endpoint: string)
    requires OpOk(s, op) && endpoint in s.plot && endpoint !in Perform(s, op).plot
    ensures op == MapDelete(endpoint)
  {
  }

  /** Nothing else takes an entry off the map. */
  lemma OnlyDeletionsUnmap(s: State, a: Action, endpoint: string)
    requires WellFormed(s) && Enabled(s, a) && endpoint in s.plot && endpoint !in Next(s, a).plot
    ensures a.ClearMap? || (a.Step? && Deletes(s, a.t, endpoint))
  {
    if a.Step? {
      EffectPcOk(s, a.t, a.o);
      PerformUnmaps(s, ThreadEffect(s, s.threads[a.t], a.o).op, endpoint);
      DeletionEffect(s, s.threads[a.t], a.o);
    }
  }

  /** An entry that is there in state i and not in state j was taken off in between. */
  lemma UnmappedBetween(h: History, i: nat, j: nat, endpoint: string) returns (k: nat)
    requires Genuine(h) && i <= j <= |h.acts|
    requires endpoint in h.states[i].plot && endpoint !in h.states[j].plot
    ensures i <= k < j && UnmapsAt(h, k, endpoint)
  {
    k := i;
    while endpoint in h.states[k + 1].plot
      invariant i <= k < j && endpoint in h.states[k].plot
      decreases j - k
    {
      k := k + 1;
    }
    assert StepAt(h, k);
    OnlyDeletionsUnmap(h.states[k], h.acts[k], endpoint);
  }

  /** proxyMap.add() leaves the entry in the map, and then looks it up. */
  lemma LoaderSteps(s: State, t: nat, o: Oracle, endpoint: string)
    requires WellFormed(s) && Enabled(s, Step(t, o))
    requires s.threads[t] == Loader(endpoint, LSet) || s.threads[t] == Loader(endpoint, LGet)
    ensures var s' := Next(s, Step(t, o));
            && t < |s'.threads|
            && (s.threads[t].l == LSet ==> endpoint in s'.plot && s'.threads[t] == Loader(endpoint, LGet))
            && (s.threads[t].l == LGet ==>
                  if endpoint in s.plot then s'.threads[t] == Loader(endpoint, LAdd(s.plot[endpoint]))
                  else s'.threads[t] == Finished(LoadFailed))
  {
    EffectPcOk(s, t, o);
  }

  /** A loader's first step from the top of proxyMap.add() leaves it at the look-up. */
  lemma SetsFirst(h: History, t: nat, endpoint: string) returns (i: nat)
    requires Genuine(h) && t < |h.states[0].threads| && h.states[0].threads[t] == Loader(endpoint, LSet)
    requires Failed(h.Last(), t)
    ensures i < |h.acts| && IsStepOf(h, i, t) && Waits(h, t, i)
    ensures endpoint in h.states[i + 1].plot
    ensures t < |h.states[i + 1].threads| && h.states[i + 1].threads[t] == Loader(endpoint, LGet)
  {
    i := FirstStep(h, t);
    assert StepAt(h, i);
    LoaderSteps(h.states[i], t, h.acts[i].o, endpoint);
  }

  predicate Failed(s: State, t: nat) {
    t < |s.threads| && s.threads[t] == Finished(LoadFailed)
  }

  lemma FoundDoesNotFail(s: State, a: Action, t: nat)
    requires WellFormed(s) && Enabled(s, a) && t < |s.threads| && Found(s.threads[t])
    ensures t < |Next(s, a).threads| && Found(Next(s, a).threads[t])
  {
    if a.Step? {
      EffectPcOk(s, a.t, a.o);
    }
  }

  /** A loader that has its record, or is done with queuing it. */
  predicate Found(pc: PC) {
    (pc.Loader? && pc.l.LAdd?) || pc == Finished(Nothing)
  }

  lemma {:induction false} FoundStays(h: History, t: nat, i: nat, j: nat)
    requires Genuine(h) && i <= j <= |h.acts| && t < |h.states[i].threads| && Found(h.states[i].threads[t])
    ensures t < |h.states[j].threads| && Found(h.states[j].threads[t])
    decreases j
  {
    if i < j {
      FoundStays(h, t, i, j - 1);
      assert StepAt(h, j - 1);
      FoundDoesNotFail(h.states[j - 1], h.acts[j - 1], t);
    }
  }

  /** The look-up of a load that fails finds nothing. */
  lemma FailedFoundNothing(h: History, t: nat, endpoint: string) returns (i: nat)
    requires Genuine(h) && t < |h.states[0].threads| && h.states[0].threads[t] == Loader(endpoint, LGet)
    requires Failed(h.Last(), t)
    ensures i < |h.acts| && endpoint !in h.states[i].plot
  {
    i := FirstStep(h, t);
    assert StepAt(h, i);
    LoaderSteps(h.states[i], t, h.acts[i].o, endpoint);
    if endpoint in h.states[i].plot {
      FoundStays(h, t, i + 1, |h.acts|);
    }
  }

  /** A load fails only if, after it made sure that the entry was in the map, somebody took it off. */
  lemma LostMeansUnmapped(h: History, t: nat, endpoint: string) returns (k: nat)
    requires Genuine(h) && t < |h.states[0].threads| && h.states[0].threads[t] == Loader(endpoint, LSet)
    requires Failed(h.Last(), t)
    ensures UnmapsAt(h, k, endpoint)
    ensures exists i: nat :: i < k && IsStepOf(h, i, t) && Waits(h, t, i)
  {
    var i := SetsFirst(h, t, endpoint);
    RestIsGenuine(h, i + 1);
    var rest := Rest(h, i + 1);
    var j := FailedFoundNothing(rest, t, endpoint);
    assert h.states[i + 1 + j] == rest.states[j];
    k := UnmappedBetween(h, i + 1, i + 1 + j, endpoint);
  }

  // ---------------------------------------------------------------- re-adding a key

  /** A record is created only for an endpoint that has no entry. */
  lemma OnlyMissingInserted(s: State, pc: PC, o: Oracle)
    requires PcOk(pc, |s.proxies|) && ThreadEffect(s, pc, o).op.MapInsert?
    ensures ThreadEffect(s, pc, o).op.endpoint !in s.plot
  {
  }

  /** The records created from s to s' are all of other endpoints. */
  predicate NoRecordAdded(s: State, s': State, endpoint: string) {
    && |s.proxies| <= |s'.proxies|
    && forall p :: |s.proxies| <= p < |s'.proxies| ==> s'.proxies[p].endpoint != endpoint
  }

  lemma PerformKeepsEntry(s: State, op: Op, endpoint: string)
    requires OpOk(s, op) && endpoint in s.plot && (op.MapInsert? ==> op.endpoint !in s.plot)
    ensures var s' := Perform(s, op);
            && (endpoint in s'.plot ==> s'.plot[endpoint] == s.plot[endpoint])
            && NoRecordAdded(s, s', endpoint)
  {
  }

  /** An entry that one action leaves in the map is the entry it was, and no other record of its endpoint comes up. */
  lemma NextKeepsEntry(s: State, a: Action, endpoint: string)
    requires WellFormed(s) && Enabled(s, a) && endpoint in s.plot
    ensures var s' := Next(s, a);
            && (endpoint in s'.plot ==> s'.plot[endpoint] == s.plot[endpoint])
            && NoRecordAdded(s, s', endpoint)
  {
    if a.Step? {
      EffectPcOk(s, a.t, a.o);
      var op := ThreadEffect(s, s.threads[a.t], a.o).op;
      if op.MapInsert? {
        OnlyMissingInserted(s, s.threads[a.t], a.o);
      }
      PerformKeepsEntry(s, op, endpoint);
    }
  }

  /** Nobody takes the entry of this endpoint off the map from state i to state j. */
  predicate NotUnmapped(h: History, i: nat, j: nat, endpoint: string)
    requires h.Shaped()
  {
    forall k: nat :: i <= k < j ==> !UnmapsAt(h, k, endpoint)
  }

  /** Re-adding a key keeps the existing record: over every history an entry is
      the entry it was as long as nobody takes it off, however often its endpoint
      is loaded again, and no second record of that endpoint is created meanwhile. */
  lemma {:induction false} EntryIsKept(h: History, i: nat, j: nat, endpoint: string)
    requires Genuine(h) && i <= j <= |h.acts| && endpoint in h.states[i].plot && NotUnmapped(h, i, j, endpoint)
    ensures endpoint in h.states[j].plot && h.states[j].plot[endpoint] == h.states[i].plot[endpoint]
    ensures NoRecordAdded(h.states[i], h.states[j], endpoint)
    decreases j
  {
    if i < j {
      EntryIsKept(h, i, j - 1, endpoint);
      InvAt(h, j - 1);
      EntryStepKept(h, j - 1, endpoint);
      NoneAddedStays(h.states[i], h.states[j - 1], h.states[j], endpoint);
    }
  }

  lemma NoneAddedStays(s0: State, s1: State, s2: State, endpoint: string)
    requires NoRecordAdded(s0, s1, endpoint) && NoRecordAdded(s1, s2, endpoint) && Later(s1, s2)
    ensures NoRecordAdded(s0, s2, endpoint)
  {
    forall p | |s0.proxies| <= p < |s2.proxies| ensures s2.proxies[p].endpoint != endpoint {
      if p < |s1.proxies| {
        assert Evolves(s1.proxies[p], s2.proxies[p]);
      }
    }
  }

  lemma EntryStepKept(h: History, k: nat, endpoint: string)
    requires Genuine(h) && k < |h.acts| && Inv(h.states[k])
    requires endpoint in h.states[k].plot && !UnmapsAt(h, k, endpoint)
    ensures endpoint in h.states[k + 1].plot && h.states[k + 1].plot[endpoint] == h.states[k].plot[endpoint]
    ensures Later(h.states[k], h.states[k + 1])
    ensures NoRecordAdded(h.states[k], h.states[k + 1], endpoint)
  {
    var s, a := h.states[k], h.acts[k];
    assert StepAt(h, k);
    NextKeepsEntry(s, a, endpoint);
    NextIsLater(s, a);
    if endpoint !in Next(s, a).plot {
      OnlyDeletionsUnmap(s, a, endpoint);
    }
  }
}
