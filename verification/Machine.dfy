/** The proxy life cycle as an interleaved step system.

    Every goroutine is a program counter in `threads`. One step is one atomic
    operation or one mutex-held block of the source: it reads the shared state,
    performs one `Op` on it and moves the thread's own program counter. The
    network, the two Rate5 limiters, the dispense middleware, random orders and
    timers answer through an `Oracle`, so whatever is proved holds for every
    answer they can give. */
module Machine {
  import opened Proto

  datatype Proxy = Proxy(
    endpoint: string,
    proxiedIP: string,
    cell: Cell,
    lastValidated: int,
    timesValidated: nat,
    timesBad: nat,
    locked: bool)
  {
    function Protocol(): Protocol { cell.value }
  }

  datatype Stats = Stats(valid: PerProto<nat>, dispensed: nat, stale: nat, checked: nat)

  datatype Options = Options(recycle: bool, removeAfter: int, stale: int, bailout: int)

  datatype Status = Running | Paused | New

  /** Auxiliary counters, not in the source: removals from and requeues on the valid lists so far. */
  datatype Log = Log(pops: PerProto<nat>, requeues: PerProto<nat>)

  datatype State = State(
    proxies: seq<Proxy>,           // every record ever created; a record's identity is its index
    plot: map<string, nat>,        // proxyMap
    pending: seq<nat>,
    valids: PerProto<seq<nat>>,
    stats: Stats,
    opt: Options,
    status: Status,
    closed: bool,                  // the engine's context is done
    now: int,
    recycleMu: bool,
    threads: seq<PC>,
    log: Log)

  // ---------------------------------------------------------------- program counters

  datatype Verdict = Refused | CutShort | Limited | Bad | Good

  /** validate(). `checks` counts the network checks this call has completed. */
  datatype VStage =
    | Cas
    | Gate
    | Limits
    | Try(todo: set<Protocol>, checks: nat)
    | Probe(proto: Protocol, todo: set<Protocol>, first: bool, checks: nat)
    | Count(proto: Protocol, todo: set<Protocol>, first: bool, checks: nat, passed: bool)
    | Fix(proto: Protocol, todo: set<Protocol>, checks: nat)
    | Judge(checks: nat)
    | MarkBad(checks: nat)
    | MarkGood(proto: Protocol, checks: nat)
    | Stamp(proto: Protocol)
    | Tally(proto: Protocol)
    | Push(proto: Protocol)
    | Release(verdict: Verdict)

  /** Who called for a proxy. A dialer's numbers: failed dials, dials made, proxies asked for. */
  datatype Caller = User | Dial(count: nat, attempts: nat, gets: nat) | Str(proto: Protocol)

  datatype GStage =
    | Loop
    | Scan(todo: seq<Protocol>)
    | Pop(proto: Protocol, todo: seq<Protocol>)
    | Exit(found: Option<nat>)

  /** stillGood(), which asks for the limit of failures twice: whether there is
      one, and what it is. SgKeep remembers the limit, the instant and the window it was judged by. */
  datatype SgStage =
    | SgCas | SgCount | SgLimit | SgDelete | SgPeek(limit: int) | SgStale(limit: int)
    | SgDrop | SgKeep(limit: int, asOf: int, window: int)

  datatype StrStage = StrLoop | StrRemove | StrExit(sock: nat)

  datatype DStage =
    | DEnter | DHead | DPop | DGot(found: Option<nat>) | DCas(sock: nat) | DRequeue(sock: nat)
    | DHold(sock: nat) | DRelease(sock: nat, approved: bool) | DDial(sock: nat)

  datatype JStage = JCheck | JRotate | JSubmit(pick: Option<nat>)

  datatype RStage = RTry | RDecide | RAdd(items: seq<nat>, count: nat) | RUnlock(count: nat)

  datatype LStage = LSet | LGet | LAdd(sock: nat)

  datatype CStage = CLoad | CSpawn | CStore | PLoad | PStore | CQuit

  datatype DialError = NoProxies | GaveUp | Cancelled | UnknownProtocol

  datatype Outcome =
    | Nothing
    | Validated(verdict: Verdict)
    | GotProxy(found: Option<nat>)
    | GotEndpoint(proto: Protocol, sock: nat, endpoint: string)
    | GotConn(sock: nat, attempts: nat, gets: nat)
    | DialFailed(why: DialError, attempts: nat, gets: nat)
    | Recycled(count: nat)
    | LoadFailed
    | Drained(proto: Protocol)       // getSocksStr removed the front of an empty list: nil dereference
    | SpawnerCrashed                 // the spawner moved the front of an empty Pending: nil dereference

  datatype PC =
    | Validator(sock: nat, entry: Proxy, v: VStage)   // entry: the record as found when the lock was taken
    | GetAny(caller: Caller, g: GStage)
    | StillGood(caller: Caller, sock: nat, todo: seq<Protocol>, q: SgStage)
    | GetStr(proto: Protocol, r: StrStage)
    | Dialer(count: nat, attempts: nat, gets: nat, d: DStage)
    | Spawner(j: JStage)
    | Recycler(y: RStage)
    | Loader(endpoint: string, l: LStage)
    | Conductor(c: CStage)
    | Finished(out: Outcome)

  /** Whatever a step needs to know from outside. */
  datatype Oracle = Oracle(yes: bool, also: bool, ip: string, proto: Protocol, order: seq<Protocol>, ids: seq<nat>)

  // ---------------------------------------------------------------- what one step does

  /** The one operation a step performs on the state all threads share. */
  datatype Op =
    | Read
    | Write(sock: nat, rec: Proxy)
    | CountCheck | CountDispensed | CountStale
    | CountValid(proto: Protocol)
    | PushValid(proto: Protocol, sock: nat)
    | PopValid(proto: Protocol)
    | Requeue(proto: Protocol, sock: nat)
    | AddPending(sock: nat)
    | Rotate
    | MapInsert(endpoint: string)
    | MapDelete(endpoint: string)
    | SetRecycleMu(held: bool)
    | SetStatus(status: Status)
    | Quit

  datatype Effect = Effect(op: Op, pc: PC, born: Option<PC>)

  function Do(op: Op, pc: PC): Effect {
    Effect(op, pc, None)
  }

  function TotalValidated(s: State): nat {
    s.stats.valid.v4a + s.stats.valid.v4 + s.stats.valid.v5 + s.stats.valid.http
  }

  function IsEmpty(s: State): bool {
    s.stats.checked == 0 || TotalValidated(s) == 0
  }

  /** GetRemoveAfter: minus one when recycling is off. */
  function RemoveAfter(s: State): int {
    if s.opt.recycle then s.opt.removeAfter else -1
  }

  /** validate() on record p, which read r. */
  function ValidatorEffect(s: State, p: nat, e: Proxy, v: VStage, o: Oracle): Effect
    requires p < |s.proxies|
  {
    var r := s.proxies[p];
    match v
    case Cas =>
      if r.locked then Do(Read, Finished(Validated(Refused)))
      else Do(Write(p, r.(locked := true)), Validator(p, r, Gate))
    case Gate =>
      Do(Read, Validator(p, e, if s.closed then Release(CutShort) else Limits))
    case Limits =>
      Do(Read, Validator(p, e,
                         if o.yes || o.also then Release(Limited)
                         else if r.timesValidated == 0 || r.Protocol() == ProtoNull then Try(TRIED, 0)
                         else Probe(r.Protocol(), {}, false, 0)))
    case Try(todo, checks) =>
      Do(Read, Validator(p, e,
                         if todo == {} then Judge(checks)
                         else if s.closed then Release(CutShort)
                         else Probe(o.proto, todo - {o.proto}, true, checks)))
    case Probe(proto, todo, first, checks) =>
      Do(if o.yes then Write(p, r.(proxiedIP := o.ip)) else Read,
         Validator(p, e, Count(proto, todo, first, checks, o.yes)))
    case Count(proto, todo, first, checks, passed) =>
      Do(CountCheck,
         Validator(p, e,
                   if first then (if passed then Fix(proto, todo, checks + 1) else Try(todo, checks + 1))
                   else if passed then Judge(checks + 1) else MarkBad(checks + 1)))
    case Fix(proto, todo, checks) =>
      Do(Write(p, r.(cell := r.cell.Set(proto))), Validator(p, e, Try(todo, checks)))
    case Judge(checks) =>
      Do(Read, Validator(p, e, if r.Protocol() != ProtoNull then MarkGood(r.Protocol(), checks) else MarkBad(checks)))
    case MarkBad(_) =>
      Do(Write(p, r.(timesBad := r.timesBad + 1)), Validator(p, e, Release(Bad)))
    case MarkGood(proto, _) =>
      Do(Write(p, r.(timesValidated := r.timesValidated + 1)), Validator(p, e, Stamp(proto)))
    case Stamp(proto) =>
      Do(Write(p, r.(lastValidated := s.now)), Validator(p, e, Tally(proto)))
    case Tally(_) =>
      if r.Protocol() == ProtoNull then Do(Read, Validator(p, e, Release(Good)))
      else Do(CountValid(r.Protocol()), Validator(p, e, Push(r.Protocol())))
    case Push(proto) =>
      Do(PushValid(proto, p), Validator(p, e, Release(Good)))
    case Release(verdict) =>
      Do(Write(p, r.(locked := false)), Finished(Validated(verdict)))
  }

  function GetAnyEffect(s: State, c: Caller, g: GStage, o: Oracle): Effect
    requires PcOk(GetAny(c, g), |s.proxies|)
  {
    match g
    case Loop =>
      Do(Read, GetAny(c, if s.closed then Exit(None) else Scan(o.order)))
    case Scan(todo) =>
      Do(Read, GetAny(c, if todo == [] then Loop
                         else if |s.valids.Get(todo[0])| < 1 then Scan(todo[1..])
                         else Pop(todo[0], todo[1..])))
    case Pop(proto, todo) =>
      var list := s.valids.Get(proto);
      if |list| < 1 then Do(Read, GetAny(c, Scan(todo)))
      else Do(PopValid(proto), StillGood(c, list[0], todo, SgCas))
    case Exit(found) =>
      Do(CountDispensed,
         match c
         case Dial(count, attempts, gets) => Dialer(count, attempts, gets + 1, DGot(found))
         case _ => Finished(GotProxy(found)))
  }

  /** Where a caller goes on after stillGood() rejected a proxy. */
  function Onward(c: Caller, todo: seq<Protocol>): PC {
    match c
    case Str(proto) => GetStr(proto, StrLoop)
    case _ => GetAny(c, Scan(todo))
  }

  function StillGoodEffect(s: State, c: Caller, p: nat, todo: seq<Protocol>, q: SgStage, o: Oracle): Effect
    requires p < |s.proxies|
  {
    var r := s.proxies[p];
    match q
    case SgCas =>
      if r.locked then Do(Read, Onward(c, todo))
      else Do(Write(p, r.(locked := true)), StillGood(c, p, todo, SgCount))
    case SgCount =>
      Do(Read, StillGood(c, p, todo, if RemoveAfter(s) == -1 then SgPeek(-1) else SgLimit))
    case SgLimit =>
      Do(Read, StillGood(c, p, todo, if r.timesBad > RemoveAfter(s) then SgDelete else SgPeek(RemoveAfter(s))))
    case SgDelete =>
      Do(MapDelete(r.endpoint), StillGood(c, p, todo, SgDrop))
    case SgPeek(limit) =>
      Do(Read, StillGood(c, p, todo, if o.yes then SgDrop else SgStale(limit)))
    case SgStale(limit) =>
      if s.now - r.lastValidated > s.opt.stale then Do(CountStale, StillGood(c, p, todo, SgDrop))
      else Do(Read, StillGood(c, p, todo, SgKeep(limit, s.now, s.opt.stale)))
    case SgDrop =>
      Do(Write(p, r.(locked := false)), Onward(c, todo))
    case SgKeep(_, _, _) =>
      Do(Write(p, r.(locked := false)),
         match c
         case Str(proto) => GetStr(proto, StrExit(p))
         case _ => GetAny(c, Exit(Some(p))))
  }

  /** getSocksStr(). Removing the front of an empty list dereferences nil. */
  function GetStrEffect(s: State, proto: Protocol, r: StrStage): Effect
    requires PcOk(GetStr(proto, r), |s.proxies|)
  {
    match r
    case StrLoop =>
      Do(Read, GetStr(proto, if |s.valids.Get(proto)| == 0 then StrLoop else StrRemove))
    case StrRemove =>
      var list := s.valids.Get(proto);
      if |list| == 0 then Do(Read, Finished(Drained(proto)))
      else Do(PopValid(proto), StillGood(Str(proto), list[0], [], SgCas))
    case StrExit(p) =>
      Do(CountDispensed, Finished(GotEndpoint(proto, p, s.proxies[p].endpoint)))
  }

  /** mysteryDialer(), with popSockAndLockIt() in DPop..DRequeue. */
  function DialerEffect(s: State, n: nat, m: nat, g: nat, d: DStage, o: Oracle): Effect
    requires PcOk(Dialer(n, m, g, d), |s.proxies|)
  {
    match d
    case DEnter =>
      Do(Read, if IsEmpty(s) then Finished(DialFailed(NoProxies, m, g)) else Dialer(n, m, g, DHead))
    case DHead =>
      Do(Read, if n > s.opt.bailout then Finished(DialFailed(GaveUp, m, g))
               else if s.closed || o.yes then Finished(DialFailed(Cancelled, m, g))
               else Dialer(n, m, g, DPop))
    case DPop =>
      Do(Read, if IsEmpty(s) then Finished(DialFailed(NoProxies, m, g)) else GetAny(Dial(n, m, g), Loop))
    case DGot(found) =>
      Do(Read, if o.yes then Finished(DialFailed(Cancelled, m, g))
               else match found
                    case None => Dialer(n, m, g, DPop)
                    case Some(p) => Dialer(n, m, g, DCas(p)))
    case DCas(p) =>
      if s.proxies[p].locked then Do(Read, Dialer(n, m, g, DRequeue(p)))
      else Do(Write(p, s.proxies[p].(locked := true)), Dialer(n, m, g, DHold(p)))
    case DRequeue(p) =>
      var proto := s.proxies[p].Protocol();
      if proto == ProtoNull then Do(Read, Finished(DialFailed(UnknownProtocol, m, g)))
      else Do(Requeue(proto, p), Dialer(n, m, g, DPop))
    case DHold(p) =>
      Do(Read, Dialer(n, m, g, DRelease(p, o.yes)))
    case DRelease(p, approved) =>
      Do(Write(p, s.proxies[p].(locked := false)), Dialer(n, m, g, if approved then DDial(p) else DHead))
    case DDial(p) =>
      Do(Read, if o.yes then Finished(GotConn(p, m + 1, g)) else Dialer(n + 1, m + 1, g, DHead))
  }

  function SpawnerEffect(s: State, j: JStage, o: Oracle): Effect
    requires PcOk(Spawner(j), |s.proxies|)
  {
    match j
    case JCheck =>
      Do(Read, if s.status != Running then Finished(Nothing)
               else if |s.pending| < 1 then Spawner(JCheck) else Spawner(JRotate))
    case JRotate =>
      if !s.opt.recycle then Do(Read, Spawner(JSubmit(None)))
      else if |s.pending| == 0 then Do(Read, Finished(SpawnerCrashed))
      else Do(Rotate, Spawner(JSubmit(Some(s.pending[0]))))
    case JSubmit(pick) =>
      if pick.Some? && o.yes
      then Effect(Read, Spawner(JCheck), Some(Validator(pick.value, s.proxies[pick.value], Cas)))
      else Do(Read, Spawner(JCheck))
  }

  function RecyclerEffect(s: State, y: RStage, o: Oracle): Effect {
    match y
    case RTry =>
      if s.recycleMu then Do(Read, Finished(Recycled(0))) else Do(SetRecycleMu(true), Recycler(RDecide))
    case RDecide =>
      Do(Read, Recycler(if !s.opt.recycle || |s.plot| < 1 || !o.yes then RUnlock(0) else RAdd(o.ids, 0)))
    case RAdd(items, count) =>
      if items == [] then Do(Read, Recycler(RUnlock(count)))
      else Do(AddPending(items[0]), Recycler(RAdd(items[1..], count + 1)))
    case RUnlock(count) =>
      Do(SetRecycleMu(false), Finished(Recycled(count)))
  }

  function LoaderEffect(s: State, endpoint: string, l: LStage): Effect {
    match l
    case LSet =>
      Do(if endpoint in s.plot then Read else MapInsert(endpoint), Loader(endpoint, LGet))
    case LGet =>
      Do(Read, if endpoint in s.plot then Loader(endpoint, LAdd(s.plot[endpoint])) else Finished(LoadFailed))
    case LAdd(p) =>
      Do(AddPending(p), Finished(Nothing))
  }

  /** CLoad..CStore is Start and Resume, PLoad..PStore is Pause, CQuit is Close (which then pauses). */
  function ConductorEffect(s: State, c: CStage): Effect {
    match c
    case CLoad => Do(Read, if s.status == Running then Finished(Nothing) else Conductor(CSpawn))
    case CSpawn => Effect(Read, Conductor(CStore), Some(Spawner(JCheck)))
    case CStore => Do(SetStatus(Running), Finished(Nothing))
    case PLoad => Do(Read, if s.status != Running then Finished(Nothing) else Conductor(PStore))
    case PStore => Do(SetStatus(Paused), Finished(Nothing))
    case CQuit => Do(Quit, Conductor(PLoad))
  }

  function ThreadEffect(s: State, pc: PC, o: Oracle): Effect
    requires PcOk(pc, |s.proxies|)
  {
    match pc
    case Validator(p, e, v) => ValidatorEffect(s, p, e, v, o)
    case GetAny(c, g) => GetAnyEffect(s, c, g, o)
    case StillGood(c, p, todo, q) => StillGoodEffect(s, c, p, todo, q, o)
    case GetStr(proto, r) => GetStrEffect(s, proto, r)
    case Dialer(n, m, g, d) => DialerEffect(s, n, m, g, d, o)
    case Spawner(j) => SpawnerEffect(s, j, o)
    case Recycler(y) => RecyclerEffect(s, y, o)
    case Loader(e, l) => LoaderEffect(s, e, l)
    case Conductor(c) => ConductorEffect(s, c)
    case Finished(_) => Do(Read, pc)
  }

  // ---------------------------------------------------------------- performing it

  function NewProxy(endpoint: string): Proxy {
    Proxy(endpoint, "", FRESH_CELL, 0, 0, 0, false)
  }

  predicate OpOk(s: State, op: Op) {
    match op
    case Write(p, _) => p < |s.proxies|
    case CountValid(proto) => proto != ProtoNull
    case PushValid(proto, p) => proto != ProtoNull && p < |s.proxies|
    case PopValid(proto) => proto != ProtoNull && |s.valids.Get(proto)| > 0
    case Requeue(proto, p) => proto != ProtoNull && p < |s.proxies|
    case AddPending(p) => p < |s.proxies|
    case Rotate => |s.pending| > 0
    case _ => true
  }

  function Perform(s: State, op: Op): State
    requires OpOk(s, op)
  {
    match op
    case Read => s
    case Write(p, r) => s.(proxies := s.proxies[p := r])
    case CountCheck => s.(stats := s.stats.(checked := s.stats.checked + 1))
    case CountDispensed => s.(stats := s.stats.(dispensed := s.stats.dispensed + 1))
    case CountStale => s.(stats := s.stats.(stale := s.stats.stale + 1))
    case CountValid(proto) =>
      s.(stats := s.stats.(valid := s.stats.valid.Set(proto, s.stats.valid.Get(proto) + 1)))
    case PushValid(proto, p) =>
      s.(valids := s.valids.Set(proto, s.valids.Get(proto) + [p]))
    case PopValid(proto) =>
      s.(valids := s.valids.Set(proto, s.valids.Get(proto)[1..]),
         log := s.log.(pops := s.log.pops.Set(proto, s.log.pops.Get(proto) + 1)))
    case Requeue(proto, p) =>
      s.(valids := s.valids.Set(proto, s.valids.Get(proto) + [p]),
         log := s.log.(requeues := s.log.requeues.Set(proto, s.log.requeues.Get(proto) + 1)))
    case AddPending(p) => s.(pending := s.pending + [p])
    case Rotate => s.(pending := s.pending[1..] + [s.pending[0]])
    case MapInsert(e) => s.(proxies := s.proxies + [NewProxy(e)], plot := s.plot[e := |s.proxies|])
    case MapDelete(e) => s.(plot := s.plot - {e})
    case SetRecycleMu(held) => s.(recycleMu := held)
    case SetStatus(status) => s.(status := status)
    case Quit => s.(closed := true)
  }

  function Born(b: Option<PC>): seq<PC> {
    match b
    case None => []
    case Some(pc) => [pc]
  }

  /** The state after thread t's effect: the operation, its new counter, and a goroutine it may have started. */
  function Apply(s: State, t: nat, e: Effect): State
    requires t < |s.threads| && OpOk(s, e.op)
  {
    Perform(s, e.op).(threads := s.threads[t := e.pc] + Born(e.born))
  }

  // ---------------------------------------------------------------- well-formed states

  predicate SocksOnly(todo: seq<Protocol>) {
    forall i :: 0 <= i < |todo| ==> todo[i] in TRIED
  }

  predicate AllBelow(ids: seq<nat>, n: nat) {
    forall i :: 0 <= i < |ids| ==> ids[i] < n
  }

  /** The identifiers a thread carries denote records, the lists it walks are SOCKS lists. */
  predicate PcOk(pc: PC, n: nat) {
    match pc
    case Validator(p, _, v) =>
      && p < n
      && (v.Push? ==> v.proto != ProtoNull)
    case GetAny(c, g) =>
      && !c.Str?
      && (g.Scan? ==> SocksOnly(g.todo))
      && (g.Pop? ==> g.proto in TRIED && SocksOnly(g.todo))
      && (g.Exit? && g.found.Some? ==> g.found.value < n)
    case StillGood(c, p, todo, _) => p < n && SocksOnly(todo) && (c.Str? ==> c.proto != ProtoNull)
    case GetStr(proto, r) => proto != ProtoNull && (r.StrExit? ==> r.sock < n)
    case Dialer(_, _, _, d) =>
      && (d.DGot? && d.found.Some? ==> d.found.value < n)
      && (d.DCas? || d.DRequeue? || d.DHold? || d.DRelease? || d.DDial? ==> d.sock < n)
    case Spawner(j) => j.JSubmit? && j.pick.Some? ==> j.pick.value < n
    case Recycler(y) => y.RAdd? ==> AllBelow(y.items, n)
    case Loader(_, l) => l.LAdd? ==> l.sock < n
    case Conductor(_) => true
    case Finished(out) =>
      && (out.GotProxy? && out.found.Some? ==> out.found.value < n)
      && (out.GotEndpoint? || out.GotConn? ==> out.sock < n)
  }

  /** Every identifier held anywhere denotes a record, and a map entry sits under its own endpoint. */
  ghost predicate WellFormed(s: State) {
    && (forall t :: 0 <= t < |s.threads| ==> PcOk(s.threads[t], |s.proxies|))
    && AllBelow(s.pending, |s.proxies|)
    && (forall k: Protocol :: k != ProtoNull ==> AllBelow(s.valids.Get(k), |s.proxies|))
    && (forall e :: e in s.plot ==> s.plot[e] < |s.proxies| && s.proxies[s.plot[e]].endpoint == e)
  }

  /** A walk over the map, in any order: each record it holds exactly once. */
  predicate IsWalk(s: State, ids: seq<nat>) {
    && (forall i, j :: 0 <= i < j < |ids| ==> ids[i] != ids[j])
    && (forall p :: p in ids ==> p in s.plot.Values)
    && (forall p :: p in s.plot.Values ==> p in ids)
  }

  predicate OracleOk(s: State, pc: PC, o: Oracle) {
    && (pc.Validator? && pc.v.Try? && pc.v.todo != {} ==> o.proto in pc.v.todo)
    && (pc.GetAny? && pc.g.Loop? ==> SocksOnly(o.order) && multiset(o.order) == multiset(TRIED))
    && (pc.Recycler? && pc.y.RDecide? && o.yes ==> IsWalk(s, o.ids))
  }

  // ---------------------------------------------------------------- the transitions

  datatype Action =
    | Step(t: nat, o: Oracle)
    | Call(pc: PC)
    | Tick(d: nat)
    | Configure(opt: Options)
    | ClearMap

  /** The calls a user of the engine can make. */
  predicate Entry(pc: PC) {
    match pc
    case GetAny(c, g) => c == User && g == Loop
    case GetStr(proto, r) => proto != ProtoNull && r == StrLoop
    case Dialer(n, m, g, d) => n == 0 && m == 0 && g == 0 && d == DEnter
    case Recycler(y) => y == RTry
    case Loader(_, l) => l == LSet
    case Conductor(c) => c == CLoad || c == PLoad || c == CQuit
    case _ => false
  }

  predicate Enabled(s: State, a: Action) {
    match a
    case Step(t, o) => t < |s.threads| && !s.threads[t].Finished? && OracleOk(s, s.threads[t], o)
    case Call(pc) => Entry(pc)
    case _ => true
  }

  function Next(s: State, a: Action): State
    requires WellFormed(s) && Enabled(s, a)
  {
    match a
    case Step(t, o) => EffectPcOk(s, t, o); Apply(s, t, ThreadEffect(s, s.threads[t], o))
    case Call(pc) => s.(threads := s.threads + [pc])
    case Tick(d) => s.(now := s.now + d)
    case Configure(opt) => s.(opt := opt)
    case ClearMap => s.(plot := map[])
  }

  /** NewProxyEngine with the options of defOpt; times are in milliseconds. */
  function Initial(now: nat): State {
    State([], map[], [], PerProto([], [], [], []),
          Stats(PerProto(0, 0, 0, 0), 0, 0, 0),
          Options(true, 25, 30 * 60 * 1000, 20),
          New, false, now, false, [],
          Log(PerProto(0, 0, 0, 0), PerProto(0, 0, 0, 0)))
  }

  // ---------------------------------------------------------------- identifiers stay in range

  lemma PcOkGrows(pc: PC, n: nat, m: nat)
    requires PcOk(pc, n) && n <= m
    ensures PcOk(pc, m)
  {
  }

  predicate EffectInRange(s: State, e: Effect) {
    && OpOk(s, e.op)
    && PcOk(e.pc, |Perform(s, e.op).proxies|)
    && (e.born.Some? ==> PcOk(e.born.value, |s.proxies|))
  }

  lemma ValidatorPcOk(s: State, pc: PC, o: Oracle)
    requires PcOk(pc, |s.proxies|) && pc.Validator?
    ensures EffectInRange(s, ThreadEffect(s, pc, o))
  {
  }

  lemma GetAnyPcOk(s: State, pc: PC, o: Oracle)
    requires WellFormed(s) && PcOk(pc, |s.proxies|) && OracleOk(s, pc, o) && pc.GetAny?
    ensures EffectInRange(s, ThreadEffect(s, pc, o))
  {
    if pc.g.Pop? {
      assert AllBelow(s.valids.Get(pc.g.proto), |s.proxies|);
    }
  }

  lemma StillGoodPcOk(s: State, pc: PC, o: Oracle)
    requires PcOk(pc, |s.proxies|) && pc.StillGood?
    ensures EffectInRange(s, ThreadEffect(s, pc, o))
  {
  }

  lemma GetStrPcOk(s: State, pc: PC, o: Oracle)
    requires WellFormed(s) && PcOk(pc, |s.proxies|) && pc.GetStr?
    ensures EffectInRange(s, ThreadEffect(s, pc, o))
  {
    assert AllBelow(s.valids.Get(pc.proto), |s.proxies|);
  }

  lemma DialerPcOk(s: State, pc: PC, o: Oracle)
    requires PcOk(pc, |s.proxies|) && pc.Dialer?
    ensures EffectInRange(s, ThreadEffect(s, pc, o))
  {
  }

  lemma RecyclerPcOk(s: State, pc: PC, o: Oracle)
    requires WellFormed(s) && PcOk(pc, |s.proxies|) && OracleOk(s, pc, o) && pc.Recycler?
    ensures EffectInRange(s, ThreadEffect(s, pc, o))
  {
    if pc.y.RDecide? && o.yes {
      forall i | 0 <= i < |o.ids| ensures o.ids[i] < |s.proxies| {
        assert o.ids[i] in o.ids;
      }
    }
  }

  lemma SchedulerPcOk(s: State, pc: PC, o: Oracle)
    requires WellFormed(s) && PcOk(pc, |s.proxies|)
    requires pc.Spawner? || pc.Loader? || pc.Conductor? || pc.Finished?
    ensures EffectInRange(s, ThreadEffect(s, pc, o))
  {
  }

  /** The operation of an enabled step is defined, and the counters it leaves are in range. */
  lemma EffectPcOk(s: State, t: nat, o: Oracle)
    requires WellFormed(s) && Enabled(s, Step(t, o))
    ensures EffectInRange(s, ThreadEffect(s, s.threads[t], o))
  {
    var pc := s.threads[t];
    match pc
    case Validator(_, _, _) => ValidatorPcOk(s, pc, o);
    case GetAny(_, _) => GetAnyPcOk(s, pc, o);
    case StillGood(_, _, _, _) => StillGoodPcOk(s, pc, o);
    case GetStr(_, _) => GetStrPcOk(s, pc, o);
    case Dialer(_, _, _, _) => DialerPcOk(s, pc, o);
    case Recycler(_) => RecyclerPcOk(s, pc, o);
    case _ => SchedulerPcOk(s, pc, o);
  }

  /** Only Write changes an existing record, and it must keep the endpoint. */
  predicate OpKeepsNames(s: State, op: Op) {
    op.Write? && op.sock < |s.proxies| ==> op.rec.endpoint == s.proxies[op.sock].endpoint
  }

  lemma PerformKeepsShared(s: State, op: Op)
    requires WellFormed(s) && OpOk(s, op) && OpKeepsNames(s, op)
    ensures var s' := Perform(s, op);
            && |s.proxies| <= |s'.proxies|
            && s'.threads == s.threads
            && AllBelow(s'.pending, |s'.proxies|)
            && (forall k: Protocol :: k != ProtoNull ==> AllBelow(s'.valids.Get(k), |s'.proxies|))
            && (forall e :: e in s'.plot ==> s'.plot[e] < |s'.proxies| && s'.proxies[s'.plot[e]].endpoint == e)
  {
    var s' := Perform(s, op);
    forall k: Protocol | k != ProtoNull ensures AllBelow(s'.valids.Get(k), |s'.proxies|) {
      assert AllBelow(s.valids.Get(k), |s.proxies|);
    }
  }

  lemma ApplyKeepsWellFormed(s: State, t: nat, e: Effect)
    requires WellFormed(s) && t < |s.threads| && OpOk(s, e.op) && OpKeepsNames(s, e.op)
    requires PcOk(e.pc, |Perform(s, e.op).proxies|)
    requires e.born.Some? ==> PcOk(e.born.value, |s.proxies|)
    ensures WellFormed(Apply(s, t, e))
  {
    PerformKeepsShared(s, e.op);
    var s' := Apply(s, t, e);
    forall u | 0 <= u < |s'.threads| ensures PcOk(s'.threads[u], |s'.proxies|) {
      if u != t {
        var pc := if u < |s.threads| then s.threads[u] else e.born.value;
        PcOkGrows(pc, |s.proxies|, |s'.proxies|);
      }
    }
  }

  lemma NextKeepsWellFormed(s: State, a: Action)
    requires WellFormed(s) && Enabled(s, a)
    ensures WellFormed(Next(s, a))
  {
    if a.Step? {
      EffectPcOk(s, a.t, a.o);
      ApplyKeepsWellFormed(s, a.t, ThreadEffect(s, s.threads[a.t], a.o));
    }
  }

  lemma InitialWellFormed(now: nat)
    ensures WellFormed(Initial(now))
  {
  }
}
