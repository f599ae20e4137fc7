/**
 What the lifecycle manager does when the components it calls back register and unregister
 components in their turn. A callback is described by the calls it makes; the log records
 every call the manager makes to a component.
 */
module LifecycleModel {
  type Id(==, !new) = nat

  datatype Event = Started(c: Id) | Ticked(c: Id) | Stopped(c: Id)

  datatype Kind = Starting | Ticking | Stopping

  function Call(kind: Kind, c: Id): Event {
    match kind
    case Starting => Started(c)
    case Ticking => Ticked(c)
    case Stopping => Stopped(c)
  }

  // What one callback does before it returns or raises: each registration may start the new
  // component, and each removal stops one, so these calls carry scripts of their own. A removal
  // that fails ends the script unless the callback guards against it.
  datatype Script =
    | Return
    | Register(c: Id, onStart: Script, rest: Script)
    | Unregister(c: Id, onStop: Script, guarded: bool, rest: Script)

  datatype State = State(components: seq<Id>, running: bool, log: seq<Event>)

  function Log(st: State, e: Event): State {
    st.(log := st.log + [e])
  }

  // `list.remove`: the first occurrence goes.
  function Remove(xs: seq<Id>, c: Id): seq<Id> {
    if xs == [] then [] else if xs[0] == c then xs[1..] else [xs[0]] + Remove(xs[1..], c)
  }

  // ---------- The manager's calls ----------

  function RegisterIn(st: State, c: Id, onStart: Script): State
    decreases onStart, 1
  {
    if c in st.components then st
    else
      var added := st.(components := st.components + [c]);
      if st.running then Exec(Log(added, Started(c)), onStart) else added
  }

  // The flag is false when the removal raises: the callback had already removed the component.
  function UnregisterIn(st: State, c: Id, onStop: Script): (State, bool)
    decreases onStop, 1
  {
    if c !in st.components then (st, true)
    else
      var stopped := Exec(Log(st, Stopped(c)), onStop);
      if c in stopped.components then (stopped.(components := Remove(stopped.components, c)), true)
      else (stopped, false)
  }

  function Exec(st: State, script: Script): State
    decreases script, 0
  {
    match script
    case Return => st
    case Register(c, onStart, rest) => Exec(RegisterIn(st, c, onStart), rest)
    case Unregister(c, onStop, guarded, rest) =>
      var (st', ok) := UnregisterIn(st, c, onStop);
      if ok || guarded then Exec(st', rest) else st'
  }

  function ScriptAt(scripts: seq<Script>, i: nat): Script {
    if i < |scripts| then scripts[i] else Return
  }

  // One callback of a sweep: the event is logged and the callback runs.
  function Callback(st: State, i: nat, kind: Kind, script: Script): State
    requires i < |st.components|
  {
    Exec(Log(st, Call(kind, st.components[i])), script)
  }

  // A `for` loop over the live list, by position; callback number `i` runs `scripts[i]`.
  function Sweep(st: State, i: nat, kind: Kind, scripts: seq<Script>): State
    decreases if i < |scripts| then |scripts| - i else 0, |st.components| - i
  {
    if i >= |st.components| then st
    else Sweep(Callback(st, i, kind, ScriptAt(scripts, i)), i + 1, kind, scripts)
  }

  function StartIn(st: State, scripts: seq<Script>): State {
    if st.running then st else Sweep(st.(running := true), 0, Starting, scripts)
  }

  function TickIn(st: State, scripts: seq<Script>): State {
    if st.running then Sweep(st, 0, Ticking, scripts) else st
  }

  function StopSweepIn(st: State, scripts: seq<Script>): State {
    Sweep(st, 0, Stopping, scripts)
  }
}
