/** The desired-shadow protocol: a cloud that issues versioned documents, a broker
    that delivers them any number of times in any order, an agent that applies and
    reports, and an uplink that loses, repeats and reorders
    (internal/agent/agent.go, internal/agent/versions.go, docs/mqtt-contract.md). */
module ShadowProtocol {
  import opened Common
  import opened Translate
  import Buffer

  datatype Doc = Doc(device: string, version: int, body: Fields)

  /** A device's state as read from Home Assistant, with the version applied, if any. */
  datatype Report = Report(device: string, version: Option<int>, state: Fields)

  type Versions = map<string, int>

  datatype Cloud = Cloud(desired: Versions, issued: set<Doc>, reported: Versions)

  /** Handlers in flight, each between two of its reads and writes of shared state:
      after `done` of a document's calls; before the state is fetched; before the
      version is read; before the report is published. */
  datatype Task =
    | Applying(doc: Doc, entity: string, done: nat)
    | Reading(device: string)
    | Stamping(device: string, state: Fields)
    | Publishing(report: Report)

  /** `applied` is the version store in memory and `disk` its file. */
  datatype Agent = Agent(applied: Versions, disk: Versions, buffer: seq<Report>, tasks: seq<Task>)

  /** `wire` holds every report ever handed to the broker: losing one is never
      ingesting it. `actuated` remembers the documents whose calls all succeeded. */
  datatype State = State(cloud: Cloud, agent: Agent, emap: map<string, string>, wire: set<Report>, actuated: set<Doc>)

  const INITIAL := State(Cloud(map[], {}, map[]), Agent(map[], map[], [], []), map[], {}, {})

  const LIMIT: nat := 512

  // ---- the version store ----------------------------------------------------------

  function VersionOf(versions: Versions, device: string): Option<int> {
    if device in versions then Some(versions[device]) else None
  }

  /** Never lowers a version. */
  function Record(versions: Versions, device: string, version: int): Versions {
    if device in versions && version <= versions[device] then versions else versions[device := version]
  }

  // ---- steps ------------------------------------------------------------------------

  /** What Home Assistant and the broker answer: whether the call or fetch worked,
      what was fetched, whether the report reached the broker and whether
      publishing it failed. Both can be: the broker got it but its answer was lost. */
  datatype Answer = Answer(ok: bool, state: Fields, sent: bool, failed: bool)

  datatype Action =
    | Issue(doc: Doc)
    | Deliver(doc: Doc)
    | Work(i: nat, answer: Answer)
    | Changed(device: string, state: Fields)
    | Reconcile(device: string)
    | Flush
    | Ingest(report: Report)
    | Restart
    | Remap(emap: map<string, string>)

  predicate Enabled(s: State, a: Action) {
    match a
    case Issue(doc) => doc.device in s.cloud.desired ==> doc.version > s.cloud.desired[doc.device]
    case Deliver(doc) => doc in s.cloud.issued
    case Work(i, _) => i < |s.agent.tasks|
    case Ingest(report) => report in s.wire
    case _ => true
  }

  /** The cloud takes a report in unless its version is behind. */
  function Ingested(reported: Versions, report: Report): Versions {
    if report.version.None? || (report.device in reported && report.version.value < reported[report.device])
    then reported else reported[report.device := report.version.value]
  }

  /** What the arrival of a document starts: nothing, a report, or an apply. */
  function Received(applied: Versions, emap: map<string, string>, doc: Doc): seq<Task> {
    if doc.device == "" then []
    else if doc.device in applied && doc.version <= applied[doc.device] then [Reading(doc.device)]
    else if Lookup(emap, doc.device) == "" then []
    else [Applying(doc, Lookup(emap, doc.device), 0)]
  }

  function Drop(s: State, i: nat): State
    requires i < |s.agent.tasks|
  {
    s.(agent := s.agent.(tasks := RemoveAt(s.agent.tasks, i)))
  }

  function Become(s: State, i: nat, task: Task): State
    requires i < |s.agent.tasks|
  {
    s.(agent := s.agent.(tasks := s.agent.tasks[i := task]))
  }

  /** Recording a version once every call has succeeded. The file is replaced in
      the same critical section, so no one sees memory and file differ. */
  function Recorded(s: State, doc: Doc): State {
    var applied := Record(s.agent.applied, doc.device, doc.version);
    s.(agent := s.agent.(applied := applied, disk := applied), actuated := s.actuated + {doc})
  }

  function Published(s: State, report: Report, answer: Answer): State {
    s.(wire := if answer.sent then s.wire + {report} else s.wire,
       agent := s.agent.(buffer :=
         if answer.failed then Buffer.Pushed(s.agent.buffer, LIMIT, report) else s.agent.buffer))
  }

  function Worked(s: State, i: nat, answer: Answer): State
    requires i < |s.agent.tasks|
  {
    match s.agent.tasks[i]
    case Applying(doc, entity, done) =>
      if done < |Desired(entity, doc.body)| then
        if answer.ok then Become(s, i, Applying(doc, entity, done + 1)) else Drop(s, i)
      else Become(Recorded(s, doc), i, Reading(doc.device))
    case Reading(device) =>
      if Lookup(s.emap, device) == "" || !answer.ok then Drop(s, i) else Become(s, i, Stamping(device, answer.state))
    case Stamping(device, state) =>
      Become(s, i, Publishing(Report(device, VersionOf(s.agent.applied, device), state)))
    case Publishing(report) =>
      Drop(Published(s, report, answer), i)
  }

  function Next(s: State, a: Action): State
    requires Enabled(s, a)
  {
    match a
    case Issue(doc) =>
      s.(cloud := s.cloud.(desired := s.cloud.desired[doc.device := doc.version], issued := s.cloud.issued + {doc}))
    case Deliver(doc) =>
      s.(agent := s.agent.(tasks := s.agent.tasks + Received(s.agent.applied, s.emap, doc)))
    case Work(i, answer) => Worked(s, i, answer)
    case Changed(device, state) => s.(agent := s.agent.(tasks := s.agent.tasks + [Stamping(device, state)]))
    case Reconcile(device) => s.(agent := s.agent.(tasks := s.agent.tasks + [Reading(device)]))
    case Flush =>
      s.(agent := s.agent.(buffer := []), wire := s.wire + set r | r in s.agent.buffer)
    case Ingest(report) => s.(cloud := s.cloud.(reported := Ingested(s.cloud.reported, report)))
    case Restart => s.(agent := Agent(s.agent.disk, s.agent.disk, [], []))
    case Remap(emap) => s.(emap := emap)
  }

  ghost predicate IsRun(states: seq<State>, actions: seq<Action>) {
    && |states| == |actions| + 1 && states[0] == INITIAL
    && forall k :: 0 <= k < |actions| ==> Enabled(states[k], actions[k]) && states[k + 1] == Next(states[k], actions[k])
  }

  // ---- safety ---------------------------------------------------------------------------

  /** A report claims no version beyond the one on disk. */
  ghost predicate Backed(report: Report, disk: Versions) {
    report.version.Some? ==> report.device in disk && report.version.value <= disk[report.device]
  }

  ghost predicate AllBacked(s: State) {
    && (forall r :: r in s.wire ==> Backed(r, s.agent.disk))
    && (forall r :: r in s.agent.buffer ==> Backed(r, s.agent.disk))
    && (forall t :: t in s.agent.tasks && t.Publishing? ==> Backed(t.report, s.agent.disk))
  }

  /** Nothing is reported beyond what is on disk, and nothing is on disk beyond
      what is desired. */
  ghost predicate Bounded(s: State) {
    && (forall d :: d in s.cloud.reported ==> d in s.agent.disk && s.cloud.reported[d] <= s.agent.disk[d])
    && (forall d :: d in s.agent.disk ==> d in s.cloud.desired && s.agent.disk[d] <= s.cloud.desired[d])
    && s.agent.applied == s.agent.disk
  }

  /** Documents in flight and applied are ones that the cloud issued, one for each
      version; and what is on disk was actuated. */
  ghost predicate Authentic(s: State) {
    && (forall doc :: doc in s.cloud.issued ==>
          doc.device in s.cloud.desired && doc.version <= s.cloud.desired[doc.device])
    && (forall x, y :: x in s.cloud.issued && y in s.cloud.issued && x.device == y.device && x.version == y.version ==>
          x == y)
    && (forall t :: t in s.agent.tasks && t.Applying? ==> t.doc in s.cloud.issued)
    && s.actuated <= s.cloud.issued
    && (forall d :: d in s.agent.disk ==> Actuated(s.actuated, d, s.agent.disk[d]))
  }

  ghost predicate Actuated(actuated: set<Doc>, device: string, version: int) {
    exists doc :: doc in actuated && doc.device == device && doc.version == version
  }

  ghost predicate Inv(s: State) {
    AllBacked(s) && Bounded(s) && Authentic(s)
  }

  /** Every version stays or rises. */
  ghost predicate Rises(v: Versions, w: Versions) {
    forall d :: d in v ==> d in w && v[d] <= w[d]
  }

  lemma RecordRises(v: Versions, device: string, version: int)
    ensures Rises(v, Record(v, device, version))
    ensures device in Record(v, device, version) && version <= Record(v, device, version)[device]
  {
  }

  lemma BackedRises(s: State, disk: Versions)
    requires AllBacked(s) && Rises(s.agent.disk, disk)
    ensures AllBacked(s.(agent := s.agent.(disk := disk)))
  {
  }

  lemma TasksLeft(s: State, i: nat, t: Task)
    requires i < |s.agent.tasks|
    ensures t in Drop(s, i).agent.tasks ==> t in s.agent.tasks
  {
  }

  lemma DropKeeps(s: State, i: nat)
    requires Inv(s) && i < |s.agent.tasks|
    ensures Inv(Drop(s, i))
  {
    forall t ensures t in Drop(s, i).agent.tasks ==> t in s.agent.tasks {
      TasksLeft(s, i, t);
    }
  }

  lemma BecomeKeeps(s: State, i: nat, task: Task)
    requires Inv(s) && i < |s.agent.tasks|
    requires task.Applying? ==> task.doc in s.cloud.issued
    requires task.Publishing? ==> Backed(task.report, s.agent.disk)
    ensures Inv(Become(s, i, task))
  {
    assert forall t :: t in Become(s, i, task).agent.tasks ==> t in s.agent.tasks || t == task;
  }

  lemma AddKeeps(s: State, task: Task)
    requires Inv(s)
    requires task.Applying? ==> task.doc in s.cloud.issued
    requires task.Publishing? ==> Backed(task.report, s.agent.disk)
    ensures Inv(s.(agent := s.agent.(tasks := s.agent.tasks + [task])))
  {
  }

  lemma PublishedKeeps(s: State, report: Report, answer: Answer)
    requires Inv(s) && Backed(report, s.agent.disk)
    ensures Inv(Published(s, report, answer))
  {
  }

  lemma RecordedKeeps(s: State, doc: Doc)
    requires Inv(s) && doc in s.cloud.issued
    ensures Inv(Recorded(s, doc))
  {
    var disk := Record(s.agent.disk, doc.device, doc.version);
    RecordRises(s.agent.disk, doc.device, doc.version);
    BackedRises(s, disk);
    forall d | d in disk ensures Actuated(s.actuated + {doc}, d, disk[d]) {
      if d == doc.device && disk[d] == doc.version {
        assert doc in s.actuated + {doc};
      } else {
        assert Actuated(s.actuated, d, s.agent.disk[d]);
      }
    }
  }

  lemma WorkKeeps(s: State, i: nat, answer: Answer)
    requires Inv(s) && i < |s.agent.tasks|
    ensures Inv(Worked(s, i, answer))
  {
    hide AllBacked, Bounded, Authentic, Drop, Become, Published, Recorded, Desired;
    var task := s.agent.tasks[i];
    TaskFacts(s, i);
    DropKeeps(s, i);
    match task {
      case Applying(doc, entity, done) =>
        if done < |Desired(entity, doc.body)| {
          BecomeKeeps(s, i, Applying(doc, entity, done + 1));
        } else {
          RecordedKeeps(s, doc);
          BecomeKeeps(Recorded(s, doc), i, Reading(doc.device));
        }
      case Reading(device) =>
        BecomeKeeps(s, i, Stamping(device, answer.state));
      case Stamping(device, state) =>
        BecomeKeeps(s, i, Publishing(Report(device, VersionOf(s.agent.applied, device), state)));
      case Publishing(report) =>
        PublishedKeeps(s, report, answer);
        DropKeeps(Published(s, report, answer), i);
    }
  }

  lemma TaskFacts(s: State, i: nat)
    requires Inv(s) && i < |s.agent.tasks|
    ensures var t := s.agent.tasks[i];
      && (t.Applying? ==> t.doc in s.cloud.issued && i < |Recorded(s, t.doc).agent.tasks|)
      && (t.Publishing? ==> Backed(t.report, s.agent.disk))
      && (forall report, answer :: i < |Published(s, report, answer).agent.tasks|)
      && s.agent.applied == s.agent.disk
  {
    assert s.agent.tasks[i] in s.agent.tasks;
  }

  lemma IssueKeeps(s: State, doc: Doc)
    requires Inv(s) && Enabled(s, Issue(doc))
    ensures Inv(Next(s, Issue(doc)))
  {
  }

  lemma RestartKeeps(s: State)
    requires Inv(s)
    ensures Inv(Next(s, Restart)) && Inv(Next(s, Flush))
  {
  }

  lemma IngestKeeps(s: State, report: Report)
    requires Inv(s) && report in s.wire
    ensures Inv(Next(s, Ingest(report)))
  {
  }

  lemma StepKeeps(s: State, a: Action)
    requires Inv(s) && Enabled(s, a)
    ensures Inv(Next(s, a))
  {
    hide Worked, Inv;
    match a {
      case Issue(doc) => IssueKeeps(s, doc);
      case Deliver(doc) =>
        DeliverKeeps(s, doc);
      case Work(i, answer) => WorkKeeps(s, i, answer);
      case Changed(device, state) => AddKeeps(s, Stamping(device, state));
      case Reconcile(device) => AddKeeps(s, Reading(device));
      case Flush => RestartKeeps(s);
      case Ingest(report) => IngestKeeps(s, report);
      case Restart => RestartKeeps(s);
      case Remap(emap) => RemapKeeps(s, emap);
    }
  }

  lemma RemapKeeps(s: State, emap: map<string, string>)
    requires Inv(s)
    ensures Inv(s.(emap := emap))
  {
  }

  lemma DeliverKeeps(s: State, doc: Doc)
    requires Inv(s) && doc in s.cloud.issued
    ensures Inv(Next(s, Deliver(doc)))
  {
    hide Inv;
    AddKeeps(s, Reading(doc.device));
    AddKeeps(s, Applying(doc, Lookup(s.emap, doc.device), 0));
    if Received(s.agent.applied, s.emap, doc) == [] {
      assert s.agent.tasks + [] == s.agent.tasks;
    }
  }

  /** In every reachable state, with reports lost, repeated and reordered, documents
      delivered in any order, handlers interleaved, and restarts anywhere: for each
      device reported <= on disk <= desired, no report in any place claims more
      than is on disk, and the version on disk is one whose document was actuated. */
  lemma {:induction false} ShadowInvariant(states: seq<State>, actions: seq<Action>, k: nat)
    requires IsRun(states, actions) && k < |states|
    ensures Inv(states[k])
  {
    hide Inv, Next;
    if k > 0 {
      ShadowInvariant(states, actions, k - 1);
      StepKeeps(states[k - 1], actions[k - 1]);
    } else {
      InitiallyInv();
    }
  }

  lemma InitiallyInv()
    ensures Inv(INITIAL)
  {
  }

  // ---- monotonicity -----------------------------------------------------------------------

  ghost predicate Onward(s: State, t: State) {
    && Rises(s.cloud.desired, t.cloud.desired)
    && Rises(s.cloud.reported, t.cloud.reported)
    && Rises(s.agent.disk, t.agent.disk)
    && s.actuated <= t.actuated
  }

  lemma WorkOnward(s: State, i: nat, answer: Answer)
    requires Bounded(s) && i < |s.agent.tasks|
    ensures Onward(s, Worked(s, i, answer))
  {
    hide Desired;
  }

  lemma StepOnward(s: State, a: Action)
    requires Bounded(s) && Enabled(s, a)
    ensures Onward(s, Next(s, a))
  {
    hide Worked;
    if a.Work? {
      WorkOnward(s, a.i, a.answer);
    }
  }

  lemma OnwardTransitive(s: State, t: State, u: State)
    requires Onward(s, t) && Onward(t, u)
    ensures Onward(s, u)
  {
  }

  /** Desired, reported and stored versions never go down in a run, whatever is
      lost, repeated, reordered or restarted. */
  lemma {:induction false} NeverBack(states: seq<State>, actions: seq<Action>, j: nat, k: nat)
    requires IsRun(states, actions) && j <= k < |states|
    ensures Onward(states[j], states[k])
  {
    hide Onward, Next, AllBacked, Bounded, Authentic;
    if j < k {
      NeverBack(states, actions, j, k - 1);
      ShadowInvariant(states, actions, k - 1);
      StepOnward(states[k - 1], actions[k - 1]);
      OnwardTransitive(states[j], states[k - 1], states[k]);
    } else {
      OnwardItself(states[j]);
    }
  }

  lemma OnwardItself(s: State)
    ensures Onward(s, s)
  {
  }

  /** A report is never stamped with less than the cloud has already seen, not even
      just after a restart; before anything is applied it carries no version, and
      then the cloud has seen none. */
  lemma NeverStampedBehind(states: seq<State>, actions: seq<Action>, k: nat, device: string)
    requires IsRun(states, actions) && k < |states|
    ensures device in states[k].cloud.reported ==>
              var version := VersionOf(states[k].agent.applied, device);
              version.Some? && states[k].cloud.reported[device] <= version.value
  {
    ShadowInvariant(states, actions, k);
  }

  /** The cloud never believes in convergence wrongly: when the reported version is
      the desired one, every call of the desired document has succeeded. */
  lemma NoFalseConvergence(states: seq<State>, actions: seq<Action>, k: nat, doc: Doc)
    requires IsRun(states, actions) && k < |states|
    requires var s := states[k];
      && doc in s.cloud.issued && VersionOf(s.cloud.desired, doc.device) == Some(doc.version)
      && VersionOf(s.cloud.reported, doc.device) == Some(doc.version)
    ensures doc in states[k].actuated
  {
    ShadowInvariant(states, actions, k);
    var s := states[k];
    assert s.agent.disk[doc.device] == doc.version;
    assert Actuated(s.actuated, doc.device, doc.version);
  }

  // ---- convergence ---------------------------------------------------------------------------

  /** How many steps a task is away from its end when everything works. */
  function StepsLeft(t: Task): nat {
    match t
    case Applying(doc, entity, done) =>
      (if done < |Desired(entity, doc.body)| then |Desired(entity, doc.body)| - done else 0) + 4
    case Reading(_) => 3
    case Stamping(_, _) => 2
    case Publishing(_) => 1
  }

  predicate GoesThrough(answer: Answer) {
    answer.ok && answer.sent
  }

  predicate Mapped(s: State, device: string) {
    Lookup(s.emap, device) != ""
  }

  function DeviceOf(t: Task): string {
    match t
    case Applying(doc, _, _) => doc.device
    case Reading(device) => device
    case Stamping(device, _) => device
    case Publishing(report) => report.device
  }

  /** Once a task of this device is through, the cloud's version has been reported. */
  ghost predicate OnItsWay(s: State, i: nat, device: string) {
    && i < |s.agent.tasks| && device in s.cloud.desired && Mapped(s, device)
    && var t := s.agent.tasks[i];
    && DeviceOf(t) == device
    && (if t.Applying? then t.doc.version == s.cloud.desired[device]
        else device in s.agent.disk && s.agent.disk[device] == s.cloud.desired[device])
    && (t.Publishing? ==> t.report.version == Some(s.cloud.desired[device]))
  }

  /** A service call that failed, and whether Home Assistant had acted on it all the same. */
  datatype Failure = Failure(at: nat, took: bool)

  /** What a task gets to hear: the calls before the failing one work, and `answer`
      holds for all that comes after the calls. */
  function AnswerTo(t: Task, failure: Option<Failure>, answer: Answer): Answer {
    if t.Applying? then answer.(ok := failure.None? || t.done != failure.value.at) else answer
  }

  /** One task's next n steps, as far as it has so many, all else standing still. */
  ghost function Steps(s: State, i: nat, failure: Option<Failure>, answer: Answer, n: nat): State
    decreases n
  {
    if n == 0 || i >= |s.agent.tasks| then s
    else Steps(Next(s, Work(i, AnswerTo(s.agent.tasks[i], failure, answer))), i, failure, answer, n - 1)
  }

  lemma WorkedOnItsWay(s: State, i: nat, device: string, answer: Answer)
    requires Inv(s) && OnItsWay(s, i, device) && GoesThrough(answer)
    ensures var t, next := s.agent.tasks[i], Worked(s, i, answer);
      && next.cloud == s.cloud
      && (if t.Publishing? then t.report in next.wire
          else OnItsWay(next, i, device) && StepsLeft(next.agent.tasks[i]) == StepsLeft(t) - 1)
  {
    hide Desired, AllBacked, Authentic;
    var t := s.agent.tasks[i];
    if t.Applying? && t.done >= |Desired(t.entity, t.doc.body)| {
      RecordRises(s.agent.applied, device, t.doc.version);
    }
  }

  lemma {:induction false} FinishedReports(s: State, i: nat, device: string, answer: Answer)
    requires Inv(s) && OnItsWay(s, i, device) && GoesThrough(answer)
    ensures var end := Steps(s, i, None, answer, StepsLeft(s.agent.tasks[i]));
      && Inv(end) && end.cloud == s.cloud
      && exists r :: r in end.wire && r.device == device && r.version == Some(s.cloud.desired[device])
    decreases StepsLeft(s.agent.tasks[i])
  {
    hide Inv, Worked, StepsLeft, Lookup;
    var task, next := s.agent.tasks[i], Worked(s, i, answer);
    assert AnswerTo(task, None, answer) == answer;
    assert StepsLeft(task) >= 1 && (task.Publishing? ==> StepsLeft(task) == 1) by { LeastSteps(task); }
    WorkKeeps(s, i, answer);
    WorkedOnItsWay(s, i, device, answer);
    if task.Publishing? {
      assert Steps(s, i, None, answer, 1) == Steps(next, i, None, answer, 0) == next;
    } else {
      FinishedReports(next, i, device, answer);
    }
  }

  lemma LeastSteps(t: Task)
    ensures StepsLeft(t) >= 1 && (t.Publishing? ==> StepsLeft(t) == 1)
  {
    hide Desired;
  }

  lemma DeliveredOnItsWay(s: State, doc: Doc)
    requires Bounded(s) && doc in s.cloud.issued && VersionOf(s.cloud.desired, doc.device) == Some(doc.version)
    requires doc.device != "" && Mapped(s, doc.device)
    ensures OnItsWay(Next(s, Deliver(doc)), |s.agent.tasks|, doc.device)
  {
    hide Lookup;
    var task := Received(s.agent.applied, s.emap, doc)[0];
    assert Received(s.agent.applied, s.emap, doc) == [task];
    assert (s.agent.tasks + [task])[|s.agent.tasks|] == task;
  }

  /** From every reachable state, one delivery of a mapped device's latest document
      that is handled without a failure, and the ingest of its report, make the
      cloud's reported version the desired one. */
  lemma Convergence(s: State, doc: Doc, answer: Answer)
    requires Inv(s) && GoesThrough(answer) && doc in s.cloud.issued
    requires VersionOf(s.cloud.desired, doc.device) == Some(doc.version)
    requires doc.device != "" && Mapped(s, doc.device)
    ensures var i, delivered := |s.agent.tasks|, Next(s, Deliver(doc));
      && i < |delivered.agent.tasks|
      && var handled := Steps(delivered, i, None, answer, StepsLeft(delivered.agent.tasks[i]));
      exists r ::
        && r in handled.wire && r.device == doc.device
        && VersionOf(Next(handled, Ingest(r)).cloud.reported, doc.device) == VersionOf(s.cloud.desired, doc.device)
  {
    hide Steps, StepsLeft, AllBacked, Authentic, Lookup;
    var i, delivered := |s.agent.tasks|, Next(s, Deliver(doc));
    DeliverKeeps(s, doc);
    DeliveredOnItsWay(s, doc);
    FinishedReports(delivered, i, doc.device, answer);
    var handled := Steps(delivered, i, None, answer, StepsLeft(delivered.agent.tasks[i]));
    var r :| r in handled.wire && r.device == doc.device && r.version == Some(s.cloud.desired[doc.device]);
    assert Bounded(handled);
  }
}
