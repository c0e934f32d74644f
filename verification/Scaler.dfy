/** internal/scaler: the auto-scaler and the pool it tunes. The class methods
    follow the source; `Decide` says in one line each what a call amounts to. */
module Scaler {

  datatype ScalerState = Disabled | Idle | ScalingUp | ScalingDown

  /** What a panic or a return of ScaleAnts reports. */
  datatype Reply = Panicked | Returned(changed: bool)

  /** The scaler and its pool as one value. */
  datatype View = View(state: ScalerState, max: int, baseline: int, mod: int, threshold: int, cap: int) {
    predicate On() { state != Disabled }
  }

  // ---------------------------------------------------------------- specification

  datatype Decision = Hold | Settle | Grow(to: ScalerState) | Shrink(to: ScalerState)

  /** Validated proxies not yet considered dispensed; never negative. */
  function Surplus(validated: int, dispensed: int): int {
    if dispensed > validated then 0 else validated - dispensed
  }

  function Decide(v: View, validated: int, dispensed: int): Decision {
    var surplus := Surplus(validated, dispensed);
    if !v.On() then
      if v.mod > 0 && v.cap > v.baseline then Shrink(Disabled) else Hold
    else if v.mod == 0 && validated < v.threshold then Hold
    else if v.mod == 0 && v.state != Idle then Settle
    else if surplus < v.threshold && v.mod < v.max then Grow(ScalingUp)
    else if surplus > v.threshold && v.mod > 0 then Shrink(ScalingDown)
    else if v.state != Idle then Settle
    else Hold
  }

  /** ants.Pool.Tune: sizes that are not positive are ignored. */
  function Tuned(cap: int, size: int): int {
    if size <= 0 then cap else size
  }

  function After(v: View, d: Decision): View {
    match d
    case Hold => v
    case Settle => v.(state := Idle)
    case Grow(to) => v.(state := to, mod := v.mod + 1, cap := Tuned(v.cap, v.cap + 1))
    case Shrink(to) => v.(state := to, mod := v.mod - 1, cap := Tuned(v.cap, v.cap - 1))
  }

  function Scaled(v: View, validated: int, dispensed: int): View {
    After(v, Decide(v, validated, dispensed))
  }

  function Changes(v: View, validated: int, dispensed: int): bool {
    var d := Decide(v, validated, dispensed);
    d.Grow? || d.Shrink?
  }

  // ---------------------------------------------------------------- the classes

  /** Of ants.Pool only the capacity. */
  class Pool {
    var capacity: int
    var closed: bool

    constructor (size: int)
      ensures capacity == size && !closed
    {
      capacity := size;
      closed := false;
    }

    method Tune(size: int)
      modifies this`capacity
      ensures capacity == if size > 0 then size else old(capacity)
    {
      if size <= 0 {
        return;
      }
      capacity := size;
    }
  }

  class AutoScaler {
    var Max: int
    var state: ScalerState
    var baseline: int
    var mod: int
    var Threshold: int

    constructor (baseline: int, max: int, differenceThreshold: int)
      ensures this.baseline == baseline && Max == max && Threshold == differenceThreshold
      ensures state == Disabled && mod == 0
    {
      this.baseline := baseline;
      state := Disabled;
      mod := 0;
      Max := max;
      Threshold := differenceThreshold;
    }

    ghost function Seen(pool: Pool): View
      reads this, pool
    {
      View(state, Max, baseline, mod, Threshold, pool.capacity)
    }

    method Disable()
      modifies this`state
      ensures state == Disabled
    {
      state := Disabled;
    }

    method Enable()
      modifies this`state
      ensures state == Idle
    {
      state := Idle;
    }

    method SetMax(max: int)
      modifies this`Max
      ensures Max == max
    {
      Max := max;
    }

    method SetThreshold(threshold: int)
      modifies this`Threshold
      ensures Threshold == threshold
    {
      Threshold := threshold;
    }

    method SetBaseline(n: int)
      modifies this`baseline
      ensures baseline == n
    {
      baseline := n;
    }

    method CompareAndSwap(was: ScalerState, to: ScalerState) returns (ok: bool)
      modifies this`state
      ensures ok == (old(state) == was)
      ensures state == if ok then to else old(state)
    {
      ok := state == was;
      if ok {
        state := to;
      }
    }

    method IsOn() returns (on: bool)
      modifies this`state
      ensures on == (state != Disabled) && state == old(state)
    {
      var off := CompareAndSwap(Disabled, Disabled);
      on := !off;
    }

    /** Brings the pool one worker nearer to its baseline if the scaler is off and has not been drained. */
    method Drain(pool: Pool) returns (changed: bool)
      requires mod >= 0 && state == Disabled
      modifies this`mod, pool`capacity
      ensures changed == (old(mod) > 0 && old(pool.capacity) > baseline)
      ensures mod == if changed then old(mod) - 1 else old(mod)
      ensures pool.capacity == if changed && old(pool.capacity) > 1 then old(pool.capacity) - 1 else old(pool.capacity)
    {
      if mod == 0 {
        return false;
      }
      if !(pool.capacity > baseline) {
        return false;
      }
      pool.Tune(pool.capacity - 1);
      mod := mod - 1;
      return true;
    }

    method StepUp(pool: Pool)
      modifies this`mod, pool`capacity
      ensures mod == old(mod) + 1
      ensures pool.capacity == if old(pool.capacity) >= 0 then old(pool.capacity) + 1 else old(pool.capacity)
    {
      mod := mod + 1;
      pool.Tune(pool.capacity + 1);
    }

    method StepDown(pool: Pool)
      modifies this`mod, pool`capacity
      ensures mod == old(mod) - 1
      ensures pool.capacity == if old(pool.capacity) > 1 then old(pool.capacity) - 1 else old(pool.capacity)
    {
      mod := mod - 1;
      pool.Tune(pool.capacity - 1);
    }

    /** ScaleAnts amounts to Decide: its eight-way switch over compare-and-swap
        results has no other effect, and it panics iff mod is negative. */
    method ScaleAnts(pool: Pool, validated: int, dispensedIn: int) returns (reply: Reply)
      modifies this`mod, this`state, pool`capacity
      ensures reply == if old(mod) < 0 then Panicked else Returned(old(Changes(Seen(pool), validated, dispensedIn)))
      ensures Seen(pool) == if old(mod) < 0 then old(Seen(pool)) else old(Scaled(Seen(pool), validated, dispensedIn))
    {
      var dispensed := dispensedIn;
      if dispensed > validated {
        dispensed := validated;
      }
      if mod < 0 {
        return Panicked;
      }
      var on := IsOn();
      if !on {
        var drained := Drain(pool);
        return Returned(drained);
      }

      var idle := CompareAndSwap(Idle, Idle);
      var needScaleUp := validated - dispensed < Threshold && mod < Max;
      var needScaleDown := mod > 0 && validated - dispensed > Threshold;
      var noop := ((idle && !needScaleUp && !needScaleDown)
                   || (needScaleUp && mod >= Max)
                   || validated < Threshold) && mod == 0;

      if noop {
        return Returned(false);
      }
      if ((!needScaleUp && !needScaleDown) || mod == 0) && !idle {
        state := Idle;
        return Returned(false);
      }
      var swapped := false;
      if needScaleUp {
        swapped := CompareAndSwap(Idle, ScalingUp);
        if !swapped {
          swapped := CompareAndSwap(ScalingUp, ScalingUp);
        }
        if !swapped {
          swapped := CompareAndSwap(ScalingDown, ScalingUp);
        }
        if swapped {
          StepUp(pool);
          return Returned(true);
        }
      }
      if needScaleDown {
        swapped := CompareAndSwap(ScalingUp, ScalingDown);
        if !swapped {
          swapped := CompareAndSwap(Idle, ScalingDown);
        }
        if !swapped {
          swapped := CompareAndSwap(ScalingDown, ScalingDown);
        }
        if swapped {
          StepDown(pool);
          return Returned(true);
        }
      }
      return Returned(false);
    }
  }
}
