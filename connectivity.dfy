/**
 * The process-wide connectivity flag: one boolean held in a state flow,
 * written only through `updateConnectionState` and read through `isConnected`.
 */
module Connectivity {

  class ConnectionStateObserver {
    /** The value held by `connectionStateFlow`. */
    var connected: bool

    /** `MutableStateFlow(false)`: the flag starts out false. */
    constructor ()
      ensures !connected && !IsConnected()
    {
      connected := false;
    }

    /** `isConnected()`: the current value, read-only. */
    function IsConnected(): bool
      reads this
    {
      connected
    }

    /** `updateConnectionState(state)`: the emitted value becomes the current one. */
    method UpdateConnectionState(state: bool)
      modifies this
      ensures connected == state && IsConnected() == state
    {
      connected := state;
    }

    /**
     * Successive `updateConnectionState` calls, one per element of `updates`,
     * in order: the flag ends as `Replay` says, that is, at the last update,
     * or unchanged when there was none.
     */
    method UpdateAll(updates: seq<bool>)
      modifies this
      ensures connected == Replay(old(connected), updates)
      ensures connected == if updates == [] then old(connected) else updates[|updates| - 1]
    {
      var i := 0;
      while i < |updates|
        invariant 0 <= i <= |updates|
        invariant connected == Replay(old(connected), updates[..i])
      {
        UpdateConnectionState(updates[i]);
        LastUpdateWins(old(connected), updates[..i + 1]);
        i := i + 1;
      }
      assert updates[..i] == updates;
      LastUpdateWins(old(connected), updates);
    }
  }

  /** The flag after emitting `updates` in order, one emit at a time, from `initial`. */
  function Replay(initial: bool, updates: seq<bool>): bool
    decreases |updates|
  {
    if updates == [] then initial else Replay(updates[0], updates[1..])
  }

  /** Of successive updates the last one wins; with none, the flag keeps its value. */
  lemma {:induction false} LastUpdateWins(initial: bool, updates: seq<bool>)
    ensures Replay(initial, updates) == if updates == [] then initial else updates[|updates| - 1]
    decreases |updates|
  {
    if updates != [] {
      LastUpdateWins(updates[0], updates[1..]);
    }
  }

  /** Emitting the value already held, the initial one included, changes nothing. */
  lemma {:induction false} RepeatedUpdateIsIdle(initial: bool, updates: seq<bool>)
    ensures Replay(initial, updates + [Replay(initial, updates)]) == Replay(initial, updates)
  {
    LastUpdateWins(initial, updates);
    LastUpdateWins(initial, updates + [Replay(initial, updates)]);
  }
}
