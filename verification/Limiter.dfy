/** The destination limiter as the object the Worker shares: limit states found by destination, and
    permits that point at the state they were granted from. */
module Limiter {
  import opened Model
  import opened LimiterLaws

  class LimitState {
    var active: int
    var maxConcurrent: int
    var minInterval: Instant
    var nextAllowed: Instant
    var lastSequence: nat

    function View(): Limit
      reads this
    {
      Limit(active, maxConcurrent, minInterval, nextAllowed, lastSequence)
    }

    constructor (maxConcurrent: int, minInterval: Instant)
      ensures View() == Limit(0, maxConcurrent, minInterval, 0, 0)
    {
      this.active := 0;
      this.maxConcurrent := maxConcurrent;
      this.minInterval := minInterval;
      this.nextAllowed := 0;
      this.lastSequence := 0;
    }
  }

  class Permit {
    const state: LimitState
    const sequence: nat
    const previousNext: Instant
    const reservedNext: Instant
    var released: bool

    constructor (state: LimitState, sequence: nat, previousNext: Instant, reservedNext: Instant)
      ensures this.state == state && this.sequence == sequence && !released
      ensures this.previousNext == previousNext && this.reservedNext == reservedNext
    {
      this.state := state;
      this.sequence := sequence;
      this.previousNext := previousNext;
      this.reservedNext := reservedNext;
      this.released := false;
    }

    /** Gives the slot back once; an unclaimed newest permit also gives its rate reservation back. */
    method Release(claimed: bool)
      modifies this, state
      ensures released
      ensures old(released) ==> state.View() == old(state.View())
      ensures !old(released) ==>
                state.View() == Released(old(state.View()), sequence, previousNext, reservedNext, claimed)
    {
      if released {
        return;
      }
      released := true;
      state.active := state.active - 1;
      if !claimed && state.lastSequence == sequence && state.nextAllowed == reservedNext {
        state.nextAllowed := previousNext;
      }
    }
  }

  class DestinationLimiter {
    var states: map<string, LimitState>

    /** No two destinations share a state. */
    ghost predicate Valid()
      reads this
    {
      forall a, b | a in states && b in states && states[a] == states[b] :: a == b
    }

    /** What is known of a destination. */
    ghost function Known(destination: string): Option<Limit>
      reads this, if destination in states then {states[destination]} else {}
    {
      if destination in states then Some(states[destination].View()) else None
    }

    constructor ()
      ensures Valid() && states == map[]
    {
      states := map[];
    }

    method StateFor(destination: string, maxConcurrency: int, ratePerSecond: real) returns (state: LimitState)
      requires Valid()
      modifies this, if destination in states then {states[destination]} else {}
      ensures Valid() && destination in states && states[destination] == state
      ensures state.View() == Tighten(old(Known(destination)), maxConcurrency, ratePerSecond)
      ensures states.Keys == old(states.Keys) + {destination}
      ensures forall d | d in old(states) :: states[d] == old(states[d])
      ensures forall d | d in old(states) && d != destination :: states[d].View() == old(states[d].View())
      ensures destination !in old(states) ==> fresh(state)
    {
      var maxConcurrent := maxConcurrency;
      if maxConcurrent <= 0 {
        maxConcurrent := 1;
      }
      var rate := ratePerSecond;
      if rate <= 0.0 {
        rate := 1.0;
      }
      var interval := (NANOSECONDS / rate).Floor;
      if destination !in states {
        state := new LimitState(maxConcurrent, interval);
        states := states[destination := state];
        return;
      }
      state := states[destination];
      if maxConcurrent < state.maxConcurrent {
        state.maxConcurrent := maxConcurrent;
      }
      if interval > state.minInterval {
        state.minInterval := interval;
      }
    }

    /** Grants exactly when the tightened limit allows it; other destinations are untouched. */
    method TryAcquire(destination: string, maxConcurrency: int, ratePerSecond: real, now: Instant)
      returns (permit: Permit?)
      requires Valid()
      modifies this, if destination in states then {states[destination]} else {}
      ensures Valid() && destination in states
      ensures var l := Tighten(old(Known(destination)), maxConcurrency, ratePerSecond);
              && (permit != null <==> Grants(l, now))
              && states[destination].View() == (if Grants(l, now) then Granted(l, now) else l)
              && (permit != null ==>
                    && fresh(permit)
                    && !permit.released
                    && permit.state == states[destination]
                    && permit.sequence == l.lastSequence + 1
                    && permit.previousNext == l.nextAllowed
                    && permit.reservedNext == now + l.minInterval)
      ensures states.Keys == old(states.Keys) + {destination}
      ensures forall d | d in old(states) :: states[d] == old(states[d])
      ensures forall d | d in old(states) && d != destination :: states[d].View() == old(states[d].View())
      ensures destination !in old(states) ==> fresh(states[destination])
    {
      var state := StateFor(destination, maxConcurrency, ratePerSecond);
      if state.active >= state.maxConcurrent || now < state.nextAllowed {
        return null;
      }
      state.active := state.active + 1;
      state.lastSequence := state.lastSequence + 1;
      permit := new Permit(state, state.lastSequence, state.nextAllowed, now + state.minInterval);
      state.nextAllowed := permit.reservedNext;
    }
  }
}
