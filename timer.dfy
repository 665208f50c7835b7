/**
 * The named countdown registry (internal/tools/timer/timer.go). Real time is left out: a countdown
 * elapsing is the explicit event `Fire`, and a stopped countdown never fires.
 */
module Timer {

  /** `Timer`: the names of the live countdowns, each with its duration in nanoseconds. */
  class Timer {
    var active: map<string, int>
    /** Whether the Go `Callback` field is non-nil. */
    const hasCallback: bool
    /** The names passed to the callback so far, in order. */
    var fired: seq<string>

    /** `New`. */
    constructor (hasCallback: bool)
      ensures this.hasCallback == hasCallback
      ensures active == map[] && fired == []
    {
      this.hasCallback := hasCallback;
      active := map[];
      fired := [];
    }

    /** `Start`: stops and forgets any countdown of the same name, then registers the new one. */
    method Start(name: string, duration: int)
      modifies this
      ensures active == old(active)[name := duration]
      ensures name in active && active.Keys == old(active).Keys + {name}
      ensures forall n :: n in old(active) && n != name ==> n in active && active[n] == old(active)[n]
      ensures fired == old(fired)
    {
      if name in active {
        active := active - {name};
      }
      active := active[name := duration];
    }

    /** The function `Start` hands to `time.AfterFunc`, run when the countdown for `name` elapses. */
    method Fire(name: string)
      requires name in active
      modifies this
      ensures active == old(active) - {name}
      ensures fired == old(fired) + (if hasCallback then [name] else [])
    {
      active := active - {name};
      if hasCallback {
        fired := fired + [name];
      }
    }

    /** `Cancel`: reports whether `name` was live and removes only that name. */
    method Cancel(name: string) returns (found: bool)
      modifies this
      ensures found <==> name in old(active)
      ensures active == old(active) - {name}
      ensures fired == old(fired)
    {
      if name in active {
        active := active - {name};
        found := true;
      } else {
        found := false;
      }
    }

    /** `CancelAll`: stops every countdown and returns how many there were. */
    method CancelAll() returns (count: nat)
      modifies this
      ensures count == |old(active)|
      ensures active == map[]
      ensures fired == old(fired)
    {
      count := |active|;
      while active != map[]
        invariant fired == old(fired)
        decreases |active|
      {
        var name :| name in active;
        active := active - {name};
      }
    }

    /** `ActiveCount`. */
    method ActiveCount() returns (n: nat)
      ensures n == |active|
    {
      n := |active|;
    }
  }
}
