/** One update pass at a time (internal/agent/update.go): the guard under the lock,
    and every way in which triggers and passes can interleave. */
module SingleFlight {
  import opened Common

  /** A pass's goroutine: spawned, in updateAll, or about to drop the flag. */
  datatype Stage = Spawned | Running | Leaving

  datatype Pass = Pass(id: string, stage: Stage)

  datatype Event = Began(id: string) | Ended(id: string)

  /** `updating` is guarded by a mutex, so looking at it and setting it is one
      step; `log` records when passes enter and leave updateAll. */
  datatype State = State(updating: bool, passes: seq<Pass>, log: seq<Event>)

  const INITIAL := State(false, [], [])

  /** A trigger is a command, a tick, or a resume on connect. */
  datatype Action = Trigger(id: string) | Enter(i: nat) | Return(i: nat) | Drop(i: nat)

  predicate Enabled(s: State, a: Action) {
    match a
    case Trigger(_) => true
    case Enter(i) => i < |s.passes| && s.passes[i].stage == Spawned
    case Return(i) => i < |s.passes| && s.passes[i].stage == Running
    case Drop(i) => i < |s.passes| && s.passes[i].stage == Leaving
  }

  function Next(s: State, a: Action): State
    requires Enabled(s, a)
  {
    match a
    case Trigger(id) =>
      if s.updating then s else s.(updating := true, passes := s.passes + [Pass(id, Spawned)])
    case Enter(i) =>
      s.(passes := s.passes[i := Pass(s.passes[i].id, Running)], log := s.log + [Began(s.passes[i].id)])
    case Return(i) =>
      s.(passes := s.passes[i := Pass(s.passes[i].id, Leaving)], log := s.log + [Ended(s.passes[i].id)])
    case Drop(i) =>
      s.(updating := false, passes := RemoveAt(s.passes, i))
  }

  /** The states that a run goes through, whatever the interleaving. */
  ghost predicate IsRun(states: seq<State>, actions: seq<Action>) {
    && |states| == |actions| + 1 && states[0] == INITIAL
    && forall k :: 0 <= k < |actions| ==> Enabled(states[k], actions[k]) && states[k + 1] == Next(states[k], actions[k])
  }

  /** Passes entered and left one after the other, perhaps with one still inside. */
  ghost predicate Serial(log: seq<Event>, inside: bool) {
    && (|log| % 2 == if inside then 1 else 0)
    && (forall k :: 0 <= k < |log| ==> (log[k].Began? <==> k % 2 == 0))
    && (forall k, n :: 0 <= k < n < |log| && k % 2 == 0 && n == k + 1 ==> log[n].id == log[k].id)
  }

  ghost predicate Inv(s: State) {
    && |s.passes| == (if s.updating then 1 else 0)
    && Serial(s.log, s.passes != [] && s.passes[0].stage == Running)
    && (s.passes != [] && s.passes[0].stage == Running ==> s.log[|s.log| - 1] == Began(s.passes[0].id))
  }

  /** In every reachable state there is one live pass if the flag is set and none
      if not, and no pass ever enters updateAll while another is inside. */
  lemma {:induction false} OneAtATime(states: seq<State>, actions: seq<Action>, k: nat)
    requires IsRun(states, actions) && k < |states|
    ensures Inv(states[k])
  {
    if k > 0 {
      OneAtATime(states, actions, k - 1);
      StepKeeps(states[k - 1], actions[k - 1]);
    }
  }

  lemma StepKeeps(s: State, a: Action)
    requires Inv(s) && Enabled(s, a)
    ensures Inv(Next(s, a))
  {
    match a {
      case Enter(i) =>
        assert i == 0;
        SerialAppend(s.log, Began(s.passes[0].id));
      case Return(i) =>
        assert i == 0;
        SerialAppend(s.log, Ended(s.passes[0].id));
      case _ =>
    }
  }

  lemma SerialAppend(log: seq<Event>, e: Event)
    requires Serial(log, e.Ended?) && (e.Ended? ==> log[|log| - 1] == Began(e.id))
    ensures Serial(log + [e], e.Began?)
  {
    assert forall k :: 0 <= k < |log| ==> (log + [e])[k] == log[k];
  }

  /** A trigger is dropped exactly while a pass is live, and then changes nothing. */
  lemma DroppedTrigger(states: seq<State>, actions: seq<Action>, k: nat)
    requires IsRun(states, actions) && k < |actions| && actions[k].Trigger?
    ensures states[k + 1] == states[k] <==> states[k].passes != []
    ensures states[k].passes == [] ==> states[k + 1].passes == [Pass(actions[k].id, Spawned)]
  {
    OneAtATime(states, actions, k);
  }

  /** The guard itself. */
  class Guard {
    var updating: bool

    constructor ()
      ensures !updating
    {
      updating := false;
    }

    /** Whether the trigger starts a pass. */
    method StartUpdate() returns (started: bool)
      modifies this
      ensures started == !old(updating) && updating
    {
      if updating {
        return false;
      }
      updating := true;
      return true;
    }

    method PassDone()
      modifies this
      ensures !updating
    {
      updating := false;
    }
  }
}
