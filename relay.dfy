/**
 * The relay board: a fixed-size table of on/off relay states behind guarded
 * turn_on / turn_off / toggle / get_state / all_off / cleanup operations.
 * The GPIO pin writes are left out; the state table is what the model keeps.
 */
module Relay {
  import opened Common

  /** BCM pin numbers used when no pin list is given. */
  const DefaultPins: seq<int> := [4, 17, 18, 27, 22, 23, 24, 25]

  /** The relay-name table has entries for relays 0 to 7 only. */
  const MaxRelays: nat := 8

  /** One call of turn_on (on == true) or turn_off (on == false) on relay number `relay`. */
  datatype Command = Switch(relay: int, on: bool)

  /** A turn_on or turn_off call acts exactly when the board is initialised and the index is in range. */
  predicate Accepts(initialized: bool, size: int, n: int)
  {
    initialized && 0 <= n < size
  }

  /** The relay table after one call: only the addressed relay can change, and only if the call is accepted. */
  function Apply(states: seq<bool>, initialized: bool, c: Command): (r: seq<bool>)
    ensures |r| == |states|
    ensures !Accepts(initialized, |states|, c.relay) ==> r == states
    ensures Accepts(initialized, |states|, c.relay) ==>
      r[c.relay] == c.on && forall i :: 0 <= i < |r| && i != c.relay ==> r[i] == states[i]
  {
    if Accepts(initialized, |states|, c.relay) then states[c.relay := c.on] else states
  }

  /** The relay table after a sequence of calls, issued first to last. */
  function ApplyAll(states: seq<bool>, initialized: bool, cs: seq<Command>): (r: seq<bool>)
    ensures |r| == |states|
    ensures !initialized ==> r == states
    decreases |cs|
  {
    if cs == [] then states
    else Apply(ApplyAll(states, initialized, cs[..|cs| - 1]), initialized, cs[|cs| - 1])
  }

  /** Issuing one more call extends the sequence of calls by that call. */
  lemma ApplyAllSnoc(states: seq<bool>, initialized: bool, cs: seq<Command>, c: Command)
    ensures ApplyAll(states, initialized, cs + [c]) == Apply(ApplyAll(states, initialized, cs), initialized, c)
  {
  }

  /** Issuing two sequences of calls one after the other is issuing their concatenation. */
  lemma {:induction false} ApplyAllAppend(states: seq<bool>, initialized: bool, first: seq<Command>, second: seq<Command>)
    ensures ApplyAll(states, initialized, first + second) == ApplyAll(ApplyAll(states, initialized, first), initialized, second)
    decreases |second|
  {
    if second == [] {
      assert first + second == first;
    } else {
      var last := second[|second| - 1];
      var init := second[..|second| - 1];
      assert first + second == (first + init) + [last];
      assert second == init + [last];
      ApplyAllSnoc(states, initialized, first + init, last);
      ApplyAllSnoc(ApplyAll(states, initialized, first), initialized, init, last);
      ApplyAllAppend(states, initialized, first, init);
    }
  }

  /** turn_on and turn_off are idempotent: a repeated call leaves the table as the first one did. */
  lemma SwitchIdempotent(states: seq<bool>, initialized: bool, c: Command)
    ensures Apply(Apply(states, initialized, c), initialized, c) == Apply(states, initialized, c)
  {
  }

  /** Toggling a valid relay twice restores the table. */
  lemma ToggleTwice(states: seq<bool>, initialized: bool, n: int)
    requires 0 <= n < |states|
    ensures var once := Apply(states, initialized, Switch(n, !states[n]));
            Apply(once, initialized, Switch(n, !once[n])) == states
  {
  }

  /** Python's reading of a list index: a negative index counts from the end. */
  function PyIndex(n: int, size: int): (i: int)
  {
    if n < 0 then n + size else n
  }

  class RelayController {
    const relayPins: seq<int>
    const numRelays: nat
    var relayStates: seq<bool>
    var isInitialized: bool

    /** The table has one entry per pin, and there is a relay name for every entry. */
    ghost predicate Valid()
      reads this
    {
      numRelays == |relayPins| == |relayStates| && numRelays <= MaxRelays
    }

    /**
     * Sets up the table for `pins` (the default pins when None); `gpioReady`
     * stands for whether the GPIO setup succeeded.
     */
    constructor (pins: Option<seq<int>>, gpioReady: bool)
      requires pins.Some? ==> |pins.value| <= MaxRelays
      ensures Valid()
      ensures relayPins == (if pins.Some? then pins.value else DefaultPins)
      ensures numRelays == |relayPins|
      ensures relayStates == seq(numRelays, _ => false)
      ensures isInitialized == gpioReady
    {
      var ps := if pins.Some? then pins.value else DefaultPins;
      relayPins := ps;
      numRelays := |ps|;
      relayStates := seq(|ps|, _ => false);
      isInitialized := gpioReady;
    }

    method TurnOn(n: int) returns (ok: bool)
      requires Valid()
      modifies this`relayStates
      ensures Valid()
      ensures ok == Accepts(isInitialized, numRelays, n)
      ensures relayStates == Apply(old(relayStates), isInitialized, Switch(n, true))
    {
      if !isInitialized {
        return false;
      }
      if n < 0 || n >= numRelays {
        return false;
      }
      relayStates := relayStates[n := true];
      ok := true;
    }

    method TurnOff(n: int) returns (ok: bool)
      requires Valid()
      modifies this`relayStates
      ensures Valid()
      ensures ok == Accepts(isInitialized, numRelays, n)
      ensures relayStates == Apply(old(relayStates), isInitialized, Switch(n, false))
    {
      if !isInitialized {
        return false;
      }
      if n < 0 || n >= numRelays {
        return false;
      }
      relayStates := relayStates[n := false];
      ok := true;
    }

    /**
     * Reads the state before any check, so an index Python cannot subscript is
     * excluded; a negative index in range reads from the end, after which the
     * call it makes rejects it.
     */
    method Toggle(n: int) returns (ok: bool)
      requires Valid()
      requires 0 - numRelays <= n < numRelays
      modifies this`relayStates
      ensures Valid()
      ensures ok == Accepts(isInitialized, numRelays, n)
      ensures relayStates == Apply(old(relayStates), isInitialized, Switch(n, !old(relayStates)[PyIndex(n, numRelays)]))
    {
      if relayStates[PyIndex(n, numRelays)] {
        ok := TurnOff(n);
      } else {
        ok := TurnOn(n);
      }
    }

    /** Does not consult isInitialized. */
    method GetState(n: int) returns (on: bool)
      requires Valid()
      ensures on <==> 0 <= n < numRelays && relayStates[n]
    {
      if n < 0 || n >= numRelays {
        return false;
      }
      on := relayStates[n];
    }

    method AllOff() returns (ok: bool)
      requires Valid()
      modifies this`relayStates
      ensures Valid()
      ensures ok == isInitialized
      ensures relayStates == if ok then seq(numRelays, _ => false) else old(relayStates)
    {
      if !isInitialized {
        return false;
      }
      for i := 0 to numRelays
        invariant Valid()
        invariant forall j :: 0 <= j < i ==> !relayStates[j]
        invariant forall j :: i <= j < numRelays ==> relayStates[j] == old(relayStates[j])
      {
        var done := TurnOff(i);
      }
      ok := true;
    }

    /** Turns every relay off and releases the board; afterwards every turn_on and turn_off is rejected. */
    method Cleanup() returns (ok: bool)
      requires Valid()
      modifies this`relayStates, this`isInitialized
      ensures Valid()
      ensures ok == old(isInitialized)
      ensures ok ==> relayStates == seq(numRelays, _ => false) && !isInitialized
      ensures !ok ==> relayStates == old(relayStates) && !isInitialized
    {
      if !isInitialized {
        return false;
      }
      var done := AllOff();
      isInitialized := false;
      ok := true;
    }
  }

  /**
   * Issues one call `c` on behalf of a controller and records it: the table
   * afterwards is the table after all calls recorded so far (starting from `before`).
   */
  method Issue(rc: RelayController, ghost before: seq<bool>, done: seq<Command>, c: Command)
    returns (writes: seq<Command>)
    requires rc.Valid()
    requires rc.relayStates == ApplyAll(before, rc.isInitialized, done)
    modifies rc`relayStates
    ensures rc.Valid()
    ensures writes == done + [c]
    ensures rc.relayStates == Apply(old(rc.relayStates), rc.isInitialized, c)
    ensures rc.relayStates == ApplyAll(before, rc.isInitialized, writes)
  {
    var ok;
    if c.on {
      ok := rc.TurnOn(c.relay);
    } else {
      ok := rc.TurnOff(c.relay);
    }
    writes := done + [c];
    ApplyAllSnoc(before, rc.isInitialized, done, c);
  }

  /** After cleanup any board, initialised or not, rejects turn_on on any relay. */
  method CleanupThenTurnOn(rc: RelayController, n: int) returns (ok: bool)
    requires rc.Valid()
    modifies rc
    ensures rc.Valid() && !rc.isInitialized
    ensures !ok
  {
    var cleaned := rc.Cleanup();
    ok := rc.TurnOn(n);
  }
}
