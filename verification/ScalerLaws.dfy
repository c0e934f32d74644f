/** Laws of the scaler over sequential runs of calls. */
module ScalerLaws {
  import opened Scaler

  /** What may happen to a scaler and its pool, one call at a time. */
  datatype Event =
    | Scale(validated: int, dispensed: int)
    | Enable
    | Disable
    | SetMax(max: int)
    | SetThreshold(threshold: int)
    | SetMaxWorkers(num: int, empty: bool)   // empty: no proxy validated yet

  /** SetMaxWorkers asks for two workers at least until a proxy is valid. */
  function Workers(num: int, empty: bool): int {
    if empty && num < 2 then 2 else num
  }

  function Happen(v: View, e: Event): View {
    match e
    case Scale(validated, dispensed) => Scaled(v, validated, dispensed)
    case Enable => v.(state := Idle)
    case Disable => v.(state := Disabled)
    case SetMax(max) => v.(max := max)
    case SetThreshold(threshold) => v.(threshold := threshold)
    case SetMaxWorkers(num, empty) => v.(cap := Tuned(v.cap, Workers(num, empty)), baseline := Workers(num, empty))
  }

  function Run(v: View, es: seq<Event>): View
    decreases |es|
  {
    if es == [] then v else Run(Happen(v, es[0]), es[1..])
  }

  // ---------------------------------------------------------------- capacity

  predicate Sound(v: View) {
    v.mod >= 0 && (v.state == ScalingUp ==> v.mod > 0)
  }

  /** Over any run whatever mod never goes negative, so ScaleAnts never panics, and scaling up means mod > 0. */
  lemma {:induction false} ModNeverNegative(v: View, es: seq<Event>)
    requires Sound(v)
    ensures Sound(Run(v, es))
    decreases |es|
  {
    if es != [] {
      ModNeverNegative(Happen(v, es[0]), es[1..]);
    }
  }

  /** A call keeps capacity - mod, unless it tunes the pool to a size the pool
      ignores; while the difference is at least one that cannot happen. */
  lemma CapacityConserved(v: View, validated: int, dispensed: int)
    requires v.mod >= 0
    ensures var v', d := Scaled(v, validated, dispensed), Decide(v, validated, dispensed);
            && (v'.cap - v'.mod == v.cap - v.mod <==> !(d.Grow? && v.cap + 1 <= 0) && !(d.Shrink? && v.cap - 1 <= 0))
            && (v.cap - v.mod >= 1 ==> v'.cap - v'.mod == v.cap - v.mod)
  {
  }

  /** Over any run in which the worker count is left alone, capacity - mod stays what it is once it is at least one. */
  lemma {:induction false} CapacityFollowsMod(v: View, es: seq<Event>)
    requires v.mod >= 0 && v.cap - v.mod >= 1
    requires forall i :: 0 <= i < |es| ==> !es[i].SetMaxWorkers?
    ensures Run(v, es).cap - Run(v, es).mod == v.cap - v.mod
    decreases |es|
  {
    if es != [] {
      CapacityFollowsMod(Happen(v, es[0]), es[1..]);
    }
  }

  /** Workers are set to at least one, only while nothing is scaled up, and Max stays what it is. */
  predicate Disciplined(v: View, es: seq<Event>, max: int)
    decreases |es|
  {
    es == [] ||
    (&& (es[0].SetMaxWorkers? ==> v.mod == 0 && Workers(es[0].num, es[0].empty) >= 1)
     && (es[0].SetMax? ==> es[0].max == max)
     && Disciplined(Happen(v, es[0]), es[1..], max))
  }

  predicate Level(v: View, max: int) {
    v.baseline >= 1 && v.max == max && 0 <= v.mod <= max && v.cap == v.baseline + v.mod
  }

  /** Over every disciplined run the capacity is baseline + mod, between baseline and baseline + Max. */
  lemma {:induction false} CapacityBounded(v: View, es: seq<Event>, max: int)
    requires Level(v, max) && Disciplined(v, es, max)
    ensures var v' := Run(v, es);
            Level(v', max) && v'.baseline <= v'.cap <= v'.baseline + max
    decreases |es|
  {
    if es != [] {
      CapacityBounded(Happen(v, es[0]), es[1..], max);
    }
  }

  /** SetMaxWorkers does not reset mod, so it keeps the law exactly when nothing is scaled up. */
  lemma WorkersKeepLevel(v: View, num: int, empty: bool)
    requires Level(v, v.max) && Workers(num, empty) >= 1
    ensures Level(Happen(v, SetMaxWorkers(num, empty)), v.max) <==> v.mod == 0
  {
  }

  // ---------------------------------------------------------------- convergence

  /** Calls that still change something, with inputs and settings held fixed. */
  function Distance(v: View, validated: int, dispensed: int): nat
    requires v.mod >= 0
  {
    var surplus := Surplus(validated, dispensed);
    var settle := if v.state == Idle then 0 else 1;
    if !v.On() then
      Excess(v)
    else if v.mod == 0 && validated < v.threshold then 0
    else if surplus < v.threshold && v.mod < v.max then
      v.max - v.mod + 1 + (if v.mod == 0 then settle else 0)
    else if surplus > v.threshold && v.mod > 0 then v.mod + 1
    else settle
  }

  function Min(a: int, b: int): int {
    if a < b then a else b
  }

  function Repeat(v: View, validated: int, dispensed: int, n: nat): View
    decreases n
  {
    if n == 0 then v else Repeat(Scaled(v, validated, dispensed), validated, dispensed, n - 1)
  }

  lemma CallApproaches(v: View, validated: int, dispensed: int)
    requires v.mod >= 0
    ensures var v' := Scaled(v, validated, dispensed);
            && v'.mod >= 0 && v'.On() == v.On() && v'.baseline == v.baseline
            && (v' == v || Distance(v', validated, dispensed) < Distance(v, validated, dispensed))
  {
  }

  /** The bound on the number of calls, in the terms of the settings. */
  lemma DistanceBounded(v: View, validated: int, dispensed: int)
    requires v.mod >= 0
    ensures !v.On() ==> Distance(v, validated, dispensed) <= v.mod
    ensures v.On() && Surplus(validated, dispensed) >= v.threshold ==> Distance(v, validated, dispensed) <= v.mod + 1
    ensures v.On() && Surplus(validated, dispensed) <= v.threshold ==>
              Distance(v, validated, dispensed) <= (if v.mod < v.max then v.max - v.mod else 0) + 2
  {
  }

  /** Repeated calls with fixed inputs reach a fixed point of (state, mod, capacity)
      within Distance calls and stay there. */
  lemma {:induction false} ScalerConverges(v: View, validated: int, dispensed: int, n: nat)
    requires v.mod >= 0
    requires n >= Distance(v, validated, dispensed)
    ensures var w := Repeat(v, validated, dispensed, n);
            Scaled(w, validated, dispensed) == w
    decreases n
  {
    CallApproaches(v, validated, dispensed);
    var v' := Scaled(v, validated, dispensed);
    if v' == v {
      FixedStaysFixed(v, validated, dispensed, n);
    } else {
      ScalerConverges(v', validated, dispensed, n - 1);
    }
  }

  lemma {:induction false} FixedStaysFixed(v: View, validated: int, dispensed: int, n: nat)
    requires Scaled(v, validated, dispensed) == v
    ensures Repeat(v, validated, dispensed, n) == v
  {
    if n > 0 {
      FixedStaysFixed(v, validated, dispensed, n - 1);
    }
  }

  /** With fixed inputs the scaler never both grows and shrinks the pool. */
  lemma NeverOscillates(v: View, validated: int, dispensed: int, i: nat, j: nat)
    requires v.mod >= 0
    ensures !(Decide(Repeat(v, validated, dispensed, i), validated, dispensed).Grow?
              && Decide(Repeat(v, validated, dispensed, j), validated, dispensed).Shrink?)
  {
    SettingsStay(v, validated, dispensed, i);
    SettingsStay(v, validated, dispensed, j);
  }

  lemma {:induction false} SettingsStay(v: View, validated: int, dispensed: int, n: nat)
    ensures var w := Repeat(v, validated, dispensed, n);
            w.threshold == v.threshold && w.max == v.max && w.baseline == v.baseline && w.On() == v.On()
    decreases n
  {
    if n > 0 {
      SettingsStay(Scaled(v, validated, dispensed), validated, dispensed, n - 1);
    }
  }

  // ---------------------------------------------------------------- one call, in numbers

  /** When a call on an enabled scaler takes a worker more. */
  predicate WantsMore(v: View, validated: int, dispensed: int) {
    && v.mod < v.max
    && (if dispensed > validated then 0 < v.threshold else validated - dispensed < v.threshold)
    && (v.mod > 0 || (v.state == Idle && validated >= v.threshold))
  }

  /** And when one less. */
  predicate WantsLess(v: View, validated: int, dispensed: int) {
    v.mod > 0 && (if dispensed > validated then 0 > v.threshold else validated - dispensed > v.threshold)
  }

  /** One call on an enabled scaler: it grows by one, shrinks by one or leaves
      the modifier alone, it reports which of these, and the state tells the
      direction; without a direction it becomes idle, unless there is too little to go by. */
  lemma EnabledCall(v: View, validated: int, dispensed: int)
    requires v.state != Disabled && v.mod >= 0
    ensures var v' := Scaled(v, validated, dispensed);
            && (v'.mod == v.mod + 1 <==> WantsMore(v, validated, dispensed))
            && (v'.mod == v.mod - 1 <==> WantsLess(v, validated, dispensed))
            && v.mod - 1 <= v'.mod <= v.mod + 1
            && (Changes(v, validated, dispensed) <==> v'.mod != v.mod)
            && v'.state == (if WantsMore(v, validated, dispensed) then ScalingUp
                            else if WantsLess(v, validated, dispensed) then ScalingDown
                            else if v.mod == 0 && validated < v.threshold then v.state
                            else Idle)
            && v'.cap == (if v'.mod > v.mod && v.cap >= 0 then v.cap + 1
                          else if v'.mod < v.mod && v.cap > 1 then v.cap - 1
                          else v.cap)
            && v'.max == v.max && v'.baseline == v.baseline && v'.threshold == v.threshold
  {
  }

  /** And on a disabled one: a worker less iff it was scaled up and is above its baseline. */
  lemma DisabledCall(v: View, validated: int, dispensed: int)
    requires v.state == Disabled && v.mod >= 0
    ensures var v' := Scaled(v, validated, dispensed);
            && v' == v.(mod := v'.mod, cap := v'.cap)
            && v'.mod == (if v.mod > 0 && v.cap > v.baseline then v.mod - 1 else v.mod)
            && v'.cap == (if v'.mod < v.mod && v.cap > 1 then v.cap - 1 else v.cap)
            && (Changes(v, validated, dispensed) <==> v'.mod != v.mod)
  {
  }

  /** In each of these calls more validated proxies are left over than the threshold asks for. */
  predicate Plenty(v: View, es: seq<Event>) {
    AllScale(es) && forall i :: 0 <= i < |es| ==> es[i].validated - es[i].dispensed > v.threshold
  }

  /** Under a sustained surplus the pool gives back a worker a call, reports it,
      and stops when it has given back all it had taken; the capacity follows as long as it is a size at all. */
  lemma {:induction false} SustainedSurplus(v: View, es: seq<Event>)
    requires v.state != Disabled && v.mod >= 0 && Plenty(v, es)
    ensures var w := Run(v, es);
            var given := if |es| < v.mod then |es| else v.mod;
            && w.mod == v.mod - given
            && ChangeCount(v, es) == given
            && w.cap == (if v.cap - given >= 1 then v.cap - given else if v.cap <= 1 then v.cap else 1)
            && w.state != Disabled && w.max == v.max && w.baseline == v.baseline && w.threshold == v.threshold
    decreases |es|
  {
    if es != [] {
      var v' := Happen(v, es[0]);
      EnabledCall(v, es[0].validated, es[0].dispensed);
      assert forall i :: 0 <= i < |es| - 1 ==> es[1..][i] == es[i + 1];
      SustainedSurplus(v', es[1..]);
    }
  }

  // ---------------------------------------------------------------- drain

  function AllScale(es: seq<Event>): bool {
    forall i :: 0 <= i < |es| ==> es[i].Scale?
  }

  /** How many of the calls report a change. */
  function ChangeCount(v: View, es: seq<Event>): nat
    requires AllScale(es)
    decreases |es|
  {
    if es == [] then 0
    else
      (if Changes(v, es[0].validated, es[0].dispensed) then 1 else 0)
      + (assert forall i :: 0 <= i < |es| - 1 ==> es[1..][i] == es[i + 1]; ChangeCount(Happen(v, es[0]), es[1..]))
  }

  /** How many workers a disabled scaler takes back: down to the baseline, or,
      with a baseline that the pool cannot be tuned to, all it ever added. */
  function Excess(v: View): nat
    requires v.mod >= 0
  {
    if v.cap <= v.baseline then 0 else if v.baseline >= 1 then Min(v.mod, v.cap - v.baseline) else v.mod
  }

  /** The capacity after n such calls: the pool ignores sizes that are not positive. */
  function Drained(v: View, n: nat): int {
    if v.baseline >= 1 then v.cap - n else if v.cap - n >= 1 then v.cap - n else if v.cap <= 1 then v.cap else 1
  }

  /** Once disabled, calls with any inputs report a change exactly Excess(v)
      times, and then no more; they never take the capacity below the baseline,
      and end at it exactly if it is a size the pool can have and mod accounts for the difference. */
  lemma {:induction false} DisabledScalerDrains(v: View, es: seq<Event>)
    requires !v.On() && v.mod >= 0 && AllScale(es)
    ensures var v' := Run(v, es);
            var n := Min(|es|, Excess(v));
            && ChangeCount(v, es) == n
            && v' == v.(mod := v.mod - n, cap := Drained(v, n))
            && (v.cap >= v.baseline ==> v'.cap >= v.baseline)
            && (|es| >= Excess(v) ==>
                  (v'.cap == v.baseline
                   <==> v.cap == v.baseline || (v.baseline >= 1 && v.baseline < v.cap <= v.baseline + v.mod)))
    decreases |es|
  {
    if es != [] {
      assert forall i :: 0 <= i < |es| - 1 ==> es[1..][i] == es[i + 1];
      DisabledScalerDrains(Happen(v, es[0]), es[1..]);
    }
  }
}
