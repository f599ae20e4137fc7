/**
 The lifecycle manager itself: one list that the loops walk by position while the callbacks
 change it. Each method is proved to do what LifecycleModel says.
 */
module LifecycleManager {
  import opened LifecycleModel

  class Manager {
    var components: seq<Id>
    var running: bool
    // The calls made to components, oldest first.
    var log: seq<Event>

    constructor ()
      ensures Current() == State([], false, [])
    {
      components, running, log := [], false, [];
    }

    ghost function Current(): State
      reads this
    {
      State(components, running, log)
    }

    // What a component's callback does to the manager; exceptions end here.
    method RunCallback(script: Script)
      modifies this
      ensures Current() == Exec(old(Current()), script)
      decreases script, 0
    {
      match script
      case Return =>
      case Register(c, onStart, rest) =>
        RegisterComponent(c, onStart);
        RunCallback(rest);
      case Unregister(c, onStop, guarded, rest) =>
        var ok := UnregisterComponent(c, onStop);
        if !ok && !guarded {
          return;
        }
        RunCallback(rest);
    }

    method RegisterComponent(c: Id, onStart: Script)
      modifies this
      ensures Current() == RegisterIn(old(Current()), c, onStart)
      ensures c in old(components) ==> Current() == old(Current())
      ensures c !in old(components) && !old(running) ==> Current() == State(old(components) + [c], false, old(log))
      decreases onStart, 1
    {
      if c in components {
        return;
      }
      components := components + [c];
      if running {
        log := log + [Started(c)];
        RunCallback(onStart);
      }
    }

    // Returns false where the list refuses to remove what is no longer there.
    method UnregisterComponent(c: Id, onStop: Script) returns (ok: bool)
      modifies this
      ensures (Current(), ok) == UnregisterIn(old(Current()), c, onStop)
      decreases onStop, 1
    {
      if c !in components {
        return true;
      }
      log := log + [Stopped(c)];
      RunCallback(onStop);
      if c !in components {
        return false;
      }
      components := Remove(components, c);
      ok := true;
    }

    // The three `for` loops of the manager: each reads the list anew at every position.
    method CallAll(kind: Kind, scripts: seq<Script>)
      modifies this
      ensures Current() == Sweep(old(Current()), 0, kind, scripts)
    {
      var i := 0;
      while i < |components|
        invariant Sweep(Current(), i, kind, scripts) == Sweep(old(Current()), 0, kind, scripts)
        decreases if i < |scripts| then |scripts| - i else 0, |components| - i
      {
        log := log + [Call(kind, components[i])];
        RunCallback(ScriptAt(scripts, i));
        i := i + 1;
      }
    }

    method Start(scripts: seq<Script>)
      modifies this
      ensures Current() == StartIn(old(Current()), scripts)
      ensures old(running) ==> Current() == old(Current())
    {
      if running {
        return;
      }
      running := true;
      CallAll(Starting, scripts);
    }

    // One round of the tick loop.
    method TickOnce(scripts: seq<Script>)
      modifies this
      ensures Current() == TickIn(old(Current()), scripts)
      ensures !old(running) ==> Current() == old(Current())
    {
      if running {
        CallAll(Ticking, scripts);
      }
    }

    // Stopping: the flag falls first, and the sweep follows when the tick loop has ended.
    method RequestStop() returns (wasRunning: bool)
      modifies this`running
      ensures wasRunning == old(running) && !running
    {
      wasRunning := running;
      running := false;
    }

    method StopAll(scripts: seq<Script>)
      modifies this
      ensures Current() == StopSweepIn(old(Current()), scripts)
    {
      CallAll(Stopping, scripts);
    }
  }
}
