/** The pairing manager (internal/pairing/pairing.go) at lock granularity. Start is
    one step under the lock; closing claims the session under the lock, then stops
    the backend, then emits; a backend event reads the session id under the lock and
    acts on it afterwards. Timers, users and the backend may interleave in any way. */
module Pairing {
  import opened Common

  datatype Phase = Started | DeviceFound | Interviewing | Completed | Failed | Stopped

  predicate Terminal(p: Phase) {
    p == Completed || p == Failed || p == Stopped
  }

  /** What an observer of the backend and of the event stream sees, in order. */
  datatype Event =
    | BackendStart(id: string, ok: bool)
    | BackendStop(id: string)
    | Emit(id: string, phase: Phase)

  /** Work in flight outside the lock: a closer that has claimed the session and
      goes on to stop the backend and to emit, or a backend event routed to the
      session that was active when it arrived. */
  datatype Task =
    | Stopping(id: string, phase: Phase)
    | Emitting(id: string, phase: Phase)
    | Routed(id: string, phase: Phase)

  /** An empty `active` means that no session is active. */
  datatype State = State(active: string, tasks: seq<Task>, log: seq<Event>)

  const IDLE := State("", [], [])

  // ---- the backend's events (internal/pairing/z2m.go) ------------------------

  /** The phase of a Zigbee2MQTT bridge event, if it is one that pairing follows. */
  function MapBridgeEvent(kind: string, status: string): (r: Option<Phase>)
    ensures r == Some(DeviceFound) <==> kind == "device_joined"
    ensures r == Some(Interviewing) <==> kind == "device_interview" && status == "started"
    ensures r == Some(Completed) <==> kind == "device_interview" && status == "successful"
    ensures r == Some(Failed) <==> kind == "device_interview" && status == "failed"
    ensures r.Some? ==> r.value !in {Started, Stopped}
  {
    if kind == "device_joined" then Some(DeviceFound)
    else if kind == "device_interview" then
      if status == "started" then Some(Interviewing)
      else if status == "successful" then Some(Completed)
      else if status == "failed" then Some(Failed)
      else None
    else None
  }

  // ---- steps -----------------------------------------------------------------

  datatype Action =
    | Start(id: string, ok: bool)
    | Close(id: string, phase: Phase)
    | Arrive(kind: string, status: string)
    | Proceed(i: nat)

  /** Only the timer and the user close from outside; both report `stopped`. */
  predicate Enabled(s: State, a: Action) {
    match a
    case Close(_, phase) => phase == Stopped
    case Proceed(i) => i < |s.tasks|
    case _ => true
  }

  /** Start opens the join window, unless a session is active. */
  function StartStep(s: State, id: string, ok: bool): State {
    if s.active != "" then s
    else if !ok then s.(log := s.log + [BackendStart(id, false)])
    else s.(active := id, log := s.log + [BackendStart(id, true), Emit(id, Started)])
  }

  /** The part of close that runs under the lock. */
  function Claim(s: State, id: string, phase: Phase): State {
    if s.active != id || id == "" then s
    else s.(active := "", tasks := s.tasks + [Stopping(id, phase)])
  }

  function Next(s: State, a: Action): State
    requires Enabled(s, a)
  {
    match a
    case Start(id, ok) => StartStep(s, id, ok)
    case Close(id, phase) => Claim(s, id, phase)
    case Arrive(kind, status) =>
      var phase := MapBridgeEvent(kind, status);
      if phase.None? || s.active == "" then s
      else s.(tasks := s.tasks + [Routed(s.active, phase.value)])
    case Proceed(i) =>
      match s.tasks[i]
      case Stopping(id, phase) =>
        s.(tasks := RemoveAt(s.tasks, i) + [Emitting(id, phase)], log := s.log + [BackendStop(id)])
      case Emitting(id, phase) => s.(tasks := RemoveAt(s.tasks, i), log := s.log + [Emit(id, phase)])
      case Routed(id, phase) =>
        if Terminal(phase) then Claim(s.(tasks := RemoveAt(s.tasks, i)), id, phase)
        else s.(tasks := RemoveAt(s.tasks, i), log := s.log + [Emit(id, phase)])
  }

  ghost predicate IsRun(states: seq<State>, actions: seq<Action>) {
    && |states| == |actions| + 1 && states[0] == IDLE
    && forall k :: 0 <= k < |actions| ==> Enabled(states[k], actions[k]) && states[k + 1] == Next(states[k], actions[k])
  }

  // ---- conservation ------------------------------------------------------------

  ghost function StartsOf(id: string, log: seq<Event>): nat {
    Count((e: Event) => e == Emit(id, Started), log)
  }

  ghost function EndsOf(id: string, log: seq<Event>): nat {
    Count((e: Event) => e.Emit? && e.id == id && Terminal(e.phase), log)
  }

  ghost function OpensOf(id: string, log: seq<Event>): nat {
    Count((e: Event) => e == BackendStart(id, true), log)
  }

  ghost function StopsOf(id: string, log: seq<Event>): nat {
    Count((e: Event) => e == BackendStop(id), log)
  }

  ghost function ClosersOf(id: string, tasks: seq<Task>): nat {
    Count((t: Task) => !t.Routed? && t.id == id, tasks)
  }

  ghost function StoppersOf(id: string, tasks: seq<Task>): nat {
    Count((t: Task) => t.Stopping? && t.id == id, tasks)
  }

  /** For one session id: every successful start is accounted for by a terminal
      event, by a closer that has yet to emit it, or by the active session; and
      every opened window by an attempted stop, a closer about to stop, or the
      active session. */
  ghost predicate Balanced(id: string, s: State) {
    var active := if s.active == id then 1 else 0;
    && StartsOf(id, s.log) == EndsOf(id, s.log) + ClosersOf(id, s.tasks) + active
    && OpensOf(id, s.log) == StopsOf(id, s.log) + StoppersOf(id, s.tasks) + active
    && OpensOf(id, s.log) == StartsOf(id, s.log)
  }

  ghost predicate WellFormed(s: State) {
    forall i :: 0 <= i < |s.tasks| ==>
      s.tasks[i].id != "" && s.tasks[i].phase != Started && (!s.tasks[i].Routed? ==> Terminal(s.tasks[i].phase))
  }

  lemma CountTask(p: Task -> bool, tasks: seq<Task>, t: Task)
    ensures Count(p, tasks + [t]) == Count(p, tasks) + if p(t) then 1 else 0
  {
    assert (tasks + [t])[..|tasks|] == tasks;
  }

  lemma CountEvent(p: Event -> bool, log: seq<Event>, e: Event)
    ensures Count(p, log + [e]) == Count(p, log) + if p(e) then 1 else 0
  {
    assert (log + [e])[..|log|] == log;
  }

  /** What one more log entry adds to each count of a session. */
  lemma Logged(id: string, log: seq<Event>, e: Event)
    ensures StartsOf(id, log + [e]) == StartsOf(id, log) + if e == Emit(id, Started) then 1 else 0
    ensures EndsOf(id, log + [e]) == EndsOf(id, log) + if e.Emit? && e.id == id && Terminal(e.phase) then 1 else 0
    ensures OpensOf(id, log + [e]) == OpensOf(id, log) + if e == BackendStart(id, true) then 1 else 0
    ensures StopsOf(id, log + [e]) == StopsOf(id, log) + if e == BackendStop(id) then 1 else 0
  {
    CountEvent((x: Event) => x == Emit(id, Started), log, e);
    CountEvent((x: Event) => x.Emit? && x.id == id && Terminal(x.phase), log, e);
    CountEvent((x: Event) => x == BackendStart(id, true), log, e);
    CountEvent((x: Event) => x == BackendStop(id), log, e);
  }

  lemma Queued(id: string, tasks: seq<Task>, t: Task)
    ensures ClosersOf(id, tasks + [t]) == ClosersOf(id, tasks) + if !t.Routed? && t.id == id then 1 else 0
    ensures StoppersOf(id, tasks + [t]) == StoppersOf(id, tasks) + if t.Stopping? && t.id == id then 1 else 0
  {
    CountTask((x: Task) => !x.Routed? && x.id == id, tasks, t);
    CountTask((x: Task) => x.Stopping? && x.id == id, tasks, t);
  }

  lemma Taken(id: string, tasks: seq<Task>, i: nat)
    requires i < |tasks|
    ensures var t, rest := tasks[i], RemoveAt(tasks, i);
      && ClosersOf(id, rest) == ClosersOf(id, tasks) - (if !t.Routed? && t.id == id then 1 else 0)
      && StoppersOf(id, rest) == StoppersOf(id, tasks) - (if t.Stopping? && t.id == id then 1 else 0)
  {
    CountRemove((x: Task) => !x.Routed? && x.id == id, tasks, i);
    CountRemove((x: Task) => x.Stopping? && x.id == id, tasks, i);
  }

  lemma ClaimKeeps(id: string, s: State, claimed: string, phase: Phase)
    requires id != "" && Balanced(id, s)
    ensures Balanced(id, Claim(s, claimed, phase))
  {
    Queued(id, s.tasks, Stopping(claimed, phase));
  }

  lemma StepKeepsBalance(id: string, s: State, a: Action)
    requires id != "" && WellFormed(s) && Balanced(id, s) && Enabled(s, a)
    ensures Balanced(id, Next(s, a))
  {
    hide StartsOf, EndsOf, OpensOf, StopsOf, ClosersOf, StoppersOf;
    match a {
      case Start(x, ok) =>
        Logged(id, s.log, BackendStart(x, ok));
        Logged(id, s.log + [BackendStart(x, ok)], Emit(x, Started));
        assert s.log + [BackendStart(x, ok)] + [Emit(x, Started)] == s.log + [BackendStart(x, ok), Emit(x, Started)];
      case Close(x, phase) =>
        ClaimKeeps(id, s, x, phase);
      case Arrive(kind, status) =>
        if s.active != "" && MapBridgeEvent(kind, status).Some? {
          Queued(id, s.tasks, Routed(s.active, MapBridgeEvent(kind, status).value));
        }
      case Proceed(i) =>
        var rest := RemoveAt(s.tasks, i);
        Taken(id, s.tasks, i);
        match s.tasks[i] {
          case Stopping(x, phase) =>
            Logged(id, s.log, BackendStop(x));
            Queued(id, rest, Emitting(x, phase));
          case Emitting(x, phase) =>
            Logged(id, s.log, Emit(x, phase));
          case Routed(x, phase) =>
            if Terminal(phase) {
              ClaimKeeps(id, s.(tasks := rest), x, phase);
            } else {
              Logged(id, s.log, Emit(x, phase));
            }
        }
    }
  }

  lemma StepKeepsForm(s: State, a: Action)
    requires WellFormed(s) && Enabled(s, a)
    ensures WellFormed(Next(s, a))
  {
  }

  /** Under every interleaving, for every session id: the successful starts are the
      terminal events, plus the closers yet to emit, plus one if it is active; and
      the opened windows are the attempted stops, plus the closers yet to stop,
      plus one if it is active. */
  lemma {:induction false} Conservation(states: seq<State>, actions: seq<Action>, k: nat, id: string)
    requires IsRun(states, actions) && k < |states| && id != ""
    ensures WellFormed(states[k]) && Balanced(id, states[k])
  {
    hide Balanced, Next;
    if k > 0 {
      Conservation(states, actions, k - 1, id);
      StepKeepsForm(states[k - 1], actions[k - 1]) by { assert WellFormed(states[k - 1]); }
      StepKeepsBalance(id, states[k - 1], actions[k - 1]);
    } else {
      NothingYet(id);
    }
  }

  lemma NothingYet(id: string)
    requires id != ""
    ensures WellFormed(IDLE) && Balanced(id, IDLE)
  {
  }

  /** A session started once gets at most one terminal event, and has got exactly
      one when it is neither active nor being closed; and when it is not, its
      window has been asked to close as often as it was opened. */
  lemma OneTerminalEvent(states: seq<State>, actions: seq<Action>, k: nat, id: string)
    requires IsRun(states, actions) && k < |states| && id != ""
    ensures var s := states[k];
      && (StartsOf(id, s.log) <= 1 ==> EndsOf(id, s.log) <= 1)
      && (StartsOf(id, s.log) == 1 && s.active != id && ClosersOf(id, s.tasks) == 0 ==> EndsOf(id, s.log) == 1)
      && (s.active != id && ClosersOf(id, s.tasks) == 0 ==> OpensOf(id, s.log) == StopsOf(id, s.log))
  {
    hide StartsOf, EndsOf, OpensOf, StopsOf, ClosersOf, StoppersOf, Next;
    Conservation(states, actions, k, id);
    StoppersClose(id, states[k].tasks);
  }

  lemma {:induction false} StoppersClose(id: string, tasks: seq<Task>)
    ensures StoppersOf(id, tasks) <= ClosersOf(id, tasks)
  {
    if tasks != [] { StoppersClose(id, tasks[..|tasks| - 1]); }
  }

  // ---- order and exclusion -----------------------------------------------------

  /** Everything emitted for a session comes after its `started`. */
  ghost predicate Ordered(log: seq<Event>) {
    forall k :: 0 <= k < |log| && log[k].Emit? ==> Begun(log[k].id, log[..k + 1])
  }

  ghost predicate Begun(id: string, log: seq<Event>) {
    Emit(id, Started) in log
  }

  ghost predicate StartedFirst(s: State) {
    && Ordered(s.log)
    && (forall t :: t in s.tasks ==> Begun(t.id, s.log))
    && (s.active != "" ==> Begun(s.active, s.log))
  }

  lemma BegunStays(id: string, log: seq<Event>, e: Event)
    requires Begun(id, log)
    ensures Begun(id, log + [e])
  {
  }

  lemma OneMoreInOrder(log: seq<Event>, e: Event)
    requires Ordered(log) && (e.Emit? ==> Begun(e.id, log + [e]))
    ensures Ordered(log + [e])
  {
    hide Begun;
    var more := log + [e];
    forall k | 0 <= k < |more| && more[k].Emit? ensures Begun(more[k].id, more[..k + 1]) {
      assert more[..k + 1] == if k < |log| then log[..k + 1] else more;
    }
  }

  lemma LogKeepsOrder(s: State, e: Event)
    requires StartedFirst(s) && (e.Emit? ==> Begun(e.id, s.log + [e]))
    ensures StartedFirst(s.(log := s.log + [e]))
  {
    hide Begun, Ordered;
    OneMoreInOrder(s.log, e);
    forall t | t in s.tasks ensures Begun(t.id, s.log + [e]) {
      BegunStays(t.id, s.log, e);
    }
    if s.active != "" {
      BegunStays(s.active, s.log, e);
    }
  }

  lemma ClaimKeepsOrder(s: State, id: string, phase: Phase)
    requires StartedFirst(s)
    ensures StartedFirst(Claim(s, id, phase))
  {
    hide Ordered, Begun;
  }

  lemma StartKeepsOrder(s: State, id: string, ok: bool)
    requires StartedFirst(s)
    ensures StartedFirst(StartStep(s, id, ok))
  {
    hide Ordered, Begun;
    if s.active == "" {
      var asked := s.(log := s.log + [BackendStart(id, ok)]);
      LogKeepsOrder(s, BackendStart(id, ok));
      if ok {
        var told := asked.log + [Emit(id, Started)];
        JustBegun(id, asked.log);
        LogKeepsOrder(asked, Emit(id, Started));
        assert told == s.log + [BackendStart(id, true), Emit(id, Started)];
        assert StartStep(s, id, ok) == asked.(log := told, active := id);
      }
    }
  }

  lemma JustBegun(id: string, log: seq<Event>)
    ensures Begun(id, log + [Emit(id, Started)])
  {
    assert (log + [Emit(id, Started)])[|log|] == Emit(id, Started);
  }

  lemma TakenKeepsOrder(s: State, i: nat)
    requires StartedFirst(s) && i < |s.tasks|
    ensures StartedFirst(s.(tasks := RemoveAt(s.tasks, i))) && Begun(s.tasks[i].id, s.log)
  {
    var rest := RemoveAt(s.tasks, i);
    forall t | t in rest ensures Begun(t.id, s.log) {
      assert t in s.tasks;
    }
    assert s.tasks[i] in s.tasks;
  }

  lemma StepKeepsOrder(s: State, a: Action)
    requires StartedFirst(s) && Enabled(s, a)
    ensures StartedFirst(Next(s, a))
  {
    hide MapBridgeEvent, Claim, StartStep, RemoveAt, Ordered;
    match a {
      case Start(x, ok) => StartKeepsOrder(s, x, ok);
      case Close(x, phase) => ClaimKeepsOrder(s, x, phase);
      case Arrive(_, _) =>
      case Proceed(i) =>
        var task := s.tasks[i];
        var rest := s.(tasks := RemoveAt(s.tasks, i));
        TakenKeepsOrder(s, i);
        LogKeepsOrder(rest, BackendStop(task.id));
        if task.Routed? && Terminal(task.phase) {
          ClaimKeepsOrder(rest, task.id, task.phase);
        } else if !task.Stopping? {
          assert Begun(task.id, s.log + [Emit(task.id, task.phase)]);
          LogKeepsOrder(rest, Emit(task.id, task.phase));
        }
    }
  }

  /** In every interleaving each event of a session comes after its `started`. */
  lemma {:induction false} EventsAfterStarted(states: seq<State>, actions: seq<Action>, k: nat)
    requires IsRun(states, actions) && k < |states|
    ensures StartedFirst(states[k])
  {
    if k > 0 {
      EventsAfterStarted(states, actions, k - 1);
      StepKeepsOrder(states[k - 1], actions[k - 1]);
    }
  }

  // ---- what an event comes from -------------------------------------------------------

  /** What makes a session emit this phase while it is active: what Zigbee2MQTT says of a
      device, or, for `stopped`, the user or the timer. */
  predicate Causes(s: State, a: Action, id: string, phase: Phase) {
    s.active == id &&
    match phase
    case Started => false
    case DeviceFound => a.Arrive? && a.kind == "device_joined"
    case Interviewing => a == Arrive("device_interview", "started")
    case Completed => a == Arrive("device_interview", "successful")
    case Failed => a == Arrive("device_interview", "failed")
    case Stopped => a == Close(id, Stopped)
  }

  ghost predicate Caused(states: seq<State>, actions: seq<Action>, k: nat, id: string, phase: Phase)
    requires k < |states| == |actions| + 1
  {
    exists j :: 0 <= j < k && Causes(states[j], actions[j], id, phase)
  }

  /** Everything under way and everything emitted but `started` has its cause, and an end
      is emitted only after the backend was told to stop. */
  ghost predicate Explained(states: seq<State>, actions: seq<Action>, k: nat)
    requires k < |states| == |actions| + 1
  {
    var s := states[k];
    && (forall t :: t in s.tasks ==> Caused(states, actions, k, t.id, t.phase))
    && (forall e :: e in s.log && e.Emit? && e.phase != Started ==> Caused(states, actions, k, e.id, e.phase))
    && (forall t :: t in s.tasks && t.Emitting? ==> BackendStop(t.id) in s.log)
    && (forall e :: e in s.log && e.Emit? && Terminal(e.phase) ==> BackendStop(e.id) in s.log)
  }

  lemma CausedLater(states: seq<State>, actions: seq<Action>, k: nat, id: string, phase: Phase)
    requires k < |actions| && |states| == |actions| + 1
    ensures Caused(states, actions, k, id, phase) || Causes(states[k], actions[k], id, phase) ==>
              Caused(states, actions, k + 1, id, phase)
  {
    hide Causes;
  }

  /** What a step adds to the work under way and to the log, and what it is about. */
  lemma StepAdds(s: State, a: Action)
    requires Enabled(s, a)
    ensures var s' := Next(s, a);
      && (forall t :: t in s'.tasks && t !in s.tasks ==>
            (!t.Emitting? && Causes(s, a, t.id, t.phase))
            || (t.Stopping? && Routed(t.id, t.phase) in s.tasks)
            || (t.Emitting? && Stopping(t.id, t.phase) in s.tasks && BackendStop(t.id) in s'.log))
      && s.log <= s'.log
      && (forall e :: e in s'.log && e !in s.log && e.Emit? && e.phase != Started ==>
            Emitting(e.id, e.phase) in s.tasks || (Routed(e.id, e.phase) in s.tasks && !Terminal(e.phase)))
  {
    hide RemoveAt;
    match a {
      case Proceed(i) =>
        var rest := RemoveAt(s.tasks, i);
        assert s.tasks[i] in s.tasks;
        assert forall t :: t in rest ==> t in s.tasks by { TakenIn(s.tasks, i); }
        assert forall e :: e in s.log + [BackendStop(s.tasks[i].id)] ==> e in s.log || e == BackendStop(s.tasks[i].id);
      case _ =>
    }
  }

  lemma TakenIn(tasks: seq<Task>, i: nat)
    requires i < |tasks|
    ensures forall t :: t in RemoveAt(tasks, i) ==> t in tasks
  {
  }

  /** In every interleaving, a session that completed did so by a successful interview
      while it was active, one that failed by a failed one, and so on for each phase;
      and the window was asked to close before the end was told. */
  lemma {:induction false} EventsExplained(states: seq<State>, actions: seq<Action>, k: nat)
    requires IsRun(states, actions) && k < |states|
    ensures Explained(states, actions, k)
  {
    hide Next, Causes, Caused;
    if k > 0 {
      var s, a := states[k - 1], actions[k - 1];
      EventsExplained(states, actions, k - 1);
      forall id, phase
        ensures Caused(states, actions, k - 1, id, phase) || Causes(s, a, id, phase) ==>
                  Caused(states, actions, k, id, phase)
      {
        CausedLater(states, actions, k - 1, id, phase);
      }
      ExplainedLater(states, actions, k - 1);
    }
  }

  lemma ExplainedLater(states: seq<State>, actions: seq<Action>, k: nat)
    requires k < |actions| && |states| == |actions| + 1 && Explained(states, actions, k)
    requires Enabled(states[k], actions[k]) && states[k + 1] == Next(states[k], actions[k])
    requires forall id, phase :: Caused(states, actions, k, id, phase) || Causes(states[k], actions[k], id, phase) ==>
               Caused(states, actions, k + 1, id, phase)
    ensures Explained(states, actions, k + 1)
  {
    hide Next, Causes, Caused;
    StepAdds(states[k], actions[k]);
    assert forall e :: e in states[k].log ==> e in states[k + 1].log;
    forall t | t in states[k + 1].tasks
      ensures Caused(states, actions, k + 1, t.id, t.phase) && (t.Emitting? ==> BackendStop(t.id) in states[k + 1].log)
    {
      if t in states[k].tasks {
        assert t.Emitting? ==> BackendStop(t.id) in states[k].log;
      } else if t.Stopping? && Routed(t.id, t.phase) in states[k].tasks {
        assert Caused(states, actions, k, t.id, t.phase);
      }
    }
  }

  /** `started` is told exactly when the backend has just opened its window. */
  ghost predicate StartedOnOpen(log: seq<Event>) {
    forall k :: 0 <= k < |log| && log[k].Emit? && log[k].phase == Started ==>
      k > 0 && log[k - 1] == BackendStart(log[k].id, true)
  }

  lemma {:induction false} StartsOnOpen(states: seq<State>, actions: seq<Action>, k: nat)
    requires IsRun(states, actions) && k < |states|
    ensures StartedOnOpen(states[k].log) && WellFormed(states[k])
  {
    hide Next, StartedOnOpen;
    if k > 0 {
      StartsOnOpen(states, actions, k - 1);
      StepStartsOnOpen(states[k - 1], actions[k - 1]);
    } else {
      assert StartedOnOpen([]) by { NothingStarted(); }
    }
  }

  lemma NothingStarted()
    ensures StartedOnOpen([])
  {
  }

  lemma OneMoreStarted(log: seq<Event>, e: Event)
    requires StartedOnOpen(log)
    requires e.Emit? && e.phase == Started ==> log != [] && log[|log| - 1] == BackendStart(e.id, true)
    ensures StartedOnOpen(log + [e])
  {
  }

  lemma StepStartsOnOpen(s: State, a: Action)
    requires StartedOnOpen(s.log) && WellFormed(s) && Enabled(s, a)
    ensures StartedOnOpen(Next(s, a).log) && WellFormed(Next(s, a))
  {
    StepKeepsForm(s, a);
    hide StartedOnOpen, WellFormed;
    match a {
      case Start(x, ok) =>
        var asked := s.log + [BackendStart(x, ok)];
        OneMoreStarted(s.log, BackendStart(x, ok));
        if ok {
          OneMoreStarted(asked, Emit(x, Started));
          assert asked + [Emit(x, Started)] == s.log + [BackendStart(x, true), Emit(x, Started)];
        }
      case Proceed(i) =>
        NeverStarts(s, i);
        OneMoreStarted(s.log, BackendStop(s.tasks[i].id));
        OneMoreStarted(s.log, Emit(s.tasks[i].id, s.tasks[i].phase));
      case _ =>
    }
  }

  lemma NeverStarts(s: State, i: nat)
    requires WellFormed(s) && i < |s.tasks|
    ensures s.tasks[i].phase != Started
  {
  }

  /** A start while a session is active is refused and does not reach the backend;
      otherwise the backend is asked, and the session becomes active if it agrees. */
  lemma SecondStartRefused(s: State, id: string, ok: bool)
    ensures s.active != "" ==> Next(s, Start(id, ok)) == s
    ensures s.active == "" && id != "" ==>
              && OpensOf(id, Next(s, Start(id, ok)).log) == OpensOf(id, s.log) + (if ok then 1 else 0)
              && Next(s, Start(id, ok)).active == if ok then id else ""
  {
    Logged(id, s.log, BackendStart(id, ok));
    Logged(id, s.log + [BackendStart(id, ok)], Emit(id, Started));
    assert s.log + [BackendStart(id, ok)] + [Emit(id, Started)] == s.log + [BackendStart(id, ok), Emit(id, Started)];
  }

  // ---- the join window ---------------------------------------------------------

  /** Whether the backend was last asked to open its join window or to close it. */
  ghost predicate WindowOpen(log: seq<Event>) {
    log != [] &&
    var last := log[|log| - 1];
    match last
    case BackendStart(_, true) => true
    case BackendStop(_) => false
    case _ => WindowOpen(log[..|log| - 1])
  }

  lemma WindowAfter(log: seq<Event>, e: Event)
    ensures WindowOpen(log + [e]) == if e.BackendStop? then false else WindowOpen(log) || (e.BackendStart? && e.ok)
  {
    assert (log + [e])[..|log|] == log;
  }

  ghost predicate StopPending(s: State) {
    exists t :: t in s.tasks && t.Stopping?
  }

  /** A session waits for devices that its backend no longer lets in. */
  ghost predicate Stranded(s: State) {
    s.active != "" && !WindowOpen(s.log)
  }

  /** No session was opened while the close of an earlier one had yet to stop the backend. */
  ghost predicate OpenedAlone(s: State, a: Action) {
    a.Start? && a.ok && s.active == "" ==> !StopPending(s)
  }

  /** A session just opened can be stranded by the next step exactly if it was
      opened while an earlier close was still on its way to the backend. */
  lemma StrandedExactly(s: State, id: string)
    requires s.active == "" && id != ""
    ensures var after := Next(s, Start(id, true));
      && !Stranded(after)
      && ((exists a :: Enabled(after, a) && Stranded(Next(after, a))) <==> StopPending(s))
  {
    var after := Next(s, Start(id, true));
    StartOpens(s, id);
    if StopPending(s) {
      var t :| t in s.tasks && t.Stopping?;
      var i :| 0 <= i < |s.tasks| && s.tasks[i] == t;
      WindowAfter(after.log, BackendStop(t.id));
      assert Enabled(after, Proceed(i)) && Stranded(Next(after, Proceed(i)));
    } else {
      forall a | Enabled(after, a) ensures !Stranded(Next(after, a)) {
        StepKeepsWindow(after, a);
      }
    }
  }

  /** A run that strands a session: the stop that belongs to the first session comes
      after the second one was opened. */
  lemma StrandedRun() returns (states: seq<State>, actions: seq<Action>)
    ensures IsRun(states, actions) && |states| == 5 && Stranded(states[4]) && states[4].active == "b"
  {
    actions := [Start("a", true), Close("a", Stopped), Start("b", true), Proceed(0)];
    var s1 := Next(IDLE, actions[0]);
    assert s1 == State("a", [], [BackendStart("a", true), Emit("a", Started)]);
    var s2 := Next(s1, actions[1]);
    assert s2 == State("", [Stopping("a", Stopped)], s1.log);
    var s3 := Next(s2, actions[2]);
    var s4 := Next(s3, actions[3]);
    assert s4 == State("b", [Emitting("a", Stopped)], s3.log + [BackendStop("a")]);
    WindowAfter(s3.log, BackendStop("a"));
    states := [IDLE, s1, s2, s3, s4];
  }

  lemma StartOpens(s: State, id: string)
    requires s.active == ""
    ensures WindowOpen(StartStep(s, id, true).log)
  {
    WindowAfter(s.log, BackendStart(id, true));
    WindowAfter(s.log + [BackendStart(id, true)], Emit(id, Started));
    assert s.log + [BackendStart(id, true)] + [Emit(id, Started)]
        == s.log + [BackendStart(id, true), Emit(id, Started)];
  }

  /** With the session's own window open and no close on its way, any step leaves
      the window open or ends the session; a start is let in only when alone. */
  ghost predicate Safe(s: State) {
    s.active != "" ==> WindowOpen(s.log) && !StopPending(s)
  }

  lemma StepKeepsWindow(s: State, a: Action)
    requires Safe(s) && Enabled(s, a) && OpenedAlone(s, a)
    ensures Safe(Next(s, a))
  {
    match a {
      case Start(id, ok) =>
        if s.active == "" && ok {
          StartOpens(s, id);
        }
      case Close(_, _) =>
      case Arrive(_, _) =>
      case Proceed(i) =>
        var t := s.tasks[i];
        assert t in s.tasks;
        assert forall x :: x in RemoveAt(s.tasks, i) ==> x in s.tasks;
        WindowAfter(s.log, Emit(t.id, t.phase));
    }
  }

  /** If every session is opened alone, the window stays open under every session. */
  lemma {:induction false} NeverStranded(states: seq<State>, actions: seq<Action>, k: nat)
    requires IsRun(states, actions) && k < |states|
    requires forall j :: 0 <= j < |actions| ==> OpenedAlone(states[j], actions[j])
    ensures Safe(states[k]) && !Stranded(states[k])
  {
    hide Next, OpenedAlone, Enabled;
    if k > 0 {
      NeverStranded(states, actions, k - 1);
      StepKeepsWindow(states[k - 1], actions[k - 1]);
    }
  }

  // ---- the manager ---------------------------------------------------------------

  /** How much of its work a task still has to do. */
  function Left(tasks: seq<Task>): nat {
    if tasks == [] then 0
    else match tasks[0] case Routed(_, _) => 3 case Stopping(_, _) => 2 case Emitting(_, _) => 1
  }

  /** What a task leads to when nothing interleaves with it. */
  ghost function Alone(s: State): State
    requires |s.tasks| <= 1
    decreases Left(s.tasks)
  {
    if s.tasks == [] then s else Alone(Next(s, Proceed(0)))
  }

  datatype StartResult = Opened | Busy | BackendFailed

  /** The manager itself. Each method is one goroutine's run through it, so its
      contract is that of the steps above with nothing in between. */
  class Manager {
    var activeID: string
    var timerSet: bool
    ghost var log: seq<Event>

    ghost function Now(): State reads this {
      State(activeID, [], log)
    }

    constructor ()
      ensures Now() == IDLE && !timerSet
    {
      activeID, timerSet, log := "", false, [];
    }

    /** `opens` is the backend's answer, should it be asked. */
    method Start(id: string, opens: bool) returns (r: StartResult)
      modifies this
      ensures Now() == Next(old(Now()), Action.Start(id, opens))
      ensures timerSet == (r.Opened? || old(timerSet))
      ensures r == if old(activeID) != "" then Busy else if opens then Opened else BackendFailed
    {
      if activeID != "" {
        return Busy;
      }
      log := log + [BackendStart(id, opens)];
      if !opens {
        return BackendFailed;
      }
      activeID, timerSet := id, true;
      log := log + [Emit(id, Started)];
      assert log == old(log) + [BackendStart(id, true), Emit(id, Started)];
      return Opened;
    }

    /** Closing, by the user, by the timer, or by a terminal backend event. */
    method Close(id: string, phase: Phase)
      modifies this
      ensures Now() == Alone(Claim(old(Now()), id, phase))
      ensures Now() == if id == "" || id != old(activeID) then old(Now())
                       else State("", [], old(log) + [BackendStop(id)] + [Emit(id, phase)])
      ensures timerSet == (old(timerSet) && (id == "" || id != old(activeID)))
    {
      if activeID != id || id == "" {
        return;
      }
      activeID, timerSet := "", false;
      log := log + [BackendStop(id)];
      log := log + [Emit(id, phase)];
      CloseAlone(old(Now()), id, phase);
    }

    method HandleBackendEvent(kind: string, status: string)
      modifies this
      ensures Now() == Alone(Next(old(Now()), Arrive(kind, status)))
      ensures Now() == AfterEvent(old(Now()), kind, status)
    {
      var event := MapBridgeEvent(kind, status);
      var id := activeID;
      if event.None? || id == "" {
        return;
      }
      RoutedAlone(Now(), kind, status);
      if event.value == Completed || event.value == Failed {
        Close(id, event.value);
      } else {
        log := log + [Emit(id, event.value)];
      }
    }
  }

  lemma CloseAlone(s: State, id: string, phase: Phase)
    requires s.tasks == [] && s.active == id != ""
    ensures Alone(Claim(s, id, phase)) == State("", [], s.log + [BackendStop(id)] + [Emit(id, phase)])
  {
    var claimed := Claim(s, id, phase);
    assert claimed.tasks == [Stopping(id, phase)];
    var stopped := Next(claimed, Proceed(0));
    assert stopped == State("", [Emitting(id, phase)], s.log + [BackendStop(id)]);
    var emitted := Next(stopped, Proceed(0));
    assert emitted == State("", [], s.log + [BackendStop(id)] + [Emit(id, phase)]);
    assert Alone(claimed) == Alone(stopped) == Alone(emitted) == emitted;
  }

  /** A device that joins and an interview that begins are told to the active session;
      an interview that ends ends it, as it went; anything else changes nothing. */
  function AfterEvent(s: State, kind: string, status: string): State {
    var id := s.active;
    if id == "" then s
    else match (kind, status)
      case ("device_joined", _) => s.(log := s.log + [Emit(id, DeviceFound)])
      case ("device_interview", "started") => s.(log := s.log + [Emit(id, Interviewing)])
      case ("device_interview", "successful") => State("", [], s.log + [BackendStop(id)] + [Emit(id, Completed)])
      case ("device_interview", "failed") => State("", [], s.log + [BackendStop(id)] + [Emit(id, Failed)])
      case _ => s
  }

  lemma RoutedAlone(s: State, kind: string, status: string)
    requires s.tasks == []
    ensures Alone(Next(s, Arrive(kind, status))) == AfterEvent(s, kind, status)
  {
    var event := MapBridgeEvent(kind, status);
    if event.Some? && s.active != "" {
      var routed := Next(s, Arrive(kind, status));
      assert routed.tasks == [Routed(s.active, event.value)];
      assert RemoveAt(routed.tasks, 0) == [];
      if Terminal(event.value) {
        CloseAlone(s, s.active, event.value);
        assert Next(routed, Proceed(0)) == Claim(s, s.active, event.value);
      }
    }
  }
}
