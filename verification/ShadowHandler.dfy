/** Desired documents handled one after the other (internal/agent/agent.go,
    internal/agent/versions.go): what any order of deliveries leaves behind in the
    version store and in Home Assistant, and the handler itself. */
module ShadowHandler {
  import opened Common
  import opened Translate
  import opened ShadowProtocol
  import Buffer

  datatype Delivery = Delivery(doc: Doc, failure: Option<Failure>)

  /** The agent's side: versions, home, and the documents fully actuated, in order. */
  datatype Side = Side(applied: Versions, home: Home, actuated: seq<Doc>)

  predicate Broken(calls: seq<ServiceCall>, failure: Option<Failure>) {
    failure.Some? && failure.value.at < |calls|
  }

  /** The calls that took effect. */
  function Took(calls: seq<ServiceCall>, failure: Option<Failure>): (taken: seq<ServiceCall>)
    ensures taken <= calls
  {
    if Broken(calls, failure) then calls[..failure.value.at + (if failure.value.took then 1 else 0)] else calls
  }

  predicate Known(applied: Versions, doc: Doc) {
    doc.device in applied && doc.version <= applied[doc.device]
  }

  function Handle(x: Side, emap: map<string, string>, d: Delivery): Side {
    var entity := Lookup(emap, d.doc.device);
    if d.doc.device == "" || Known(x.applied, d.doc) || entity == "" then x
    else
      var calls := Desired(entity, d.doc.body);
      var home := PerformAll(x.home, Took(calls, d.failure));
      if Broken(calls, d.failure) then x.(home := home)
      else Side(Record(x.applied, d.doc.device, d.doc.version), home, x.actuated + [d.doc])
  }

  function HandleAll(x: Side, emap: map<string, string>, ds: seq<Delivery>): Side {
    if ds == [] then x else Handle(HandleAll(x, emap, ds[..|ds| - 1]), emap, ds[|ds| - 1])
  }

  // ---- the newest document wins, whatever the order -----------------------------------

  /** The document last actuated for a device. */
  function LastFor(device: string, actuated: seq<Doc>): Option<Doc> {
    if actuated == [] then None
    else if actuated[|actuated| - 1].device == device then Some(actuated[|actuated| - 1])
    else LastFor(device, actuated[..|actuated| - 1])
  }

  /** Whether an entity's fields are as wanted, wherever anything is wanted. */
  ghost predicate Agrees(fields: Fields, wanted: Fields) {
    forall k :: k in wanted ==> k in fields && fields[k] == wanted[k]
  }

  /** No delivery of this document's device has a higher version, or its version
      with other contents; and nothing as new was applied before. */
  ghost predicate Newest(doc: Doc, x: Side, ds: seq<Delivery>) {
    && !Known(x.applied, doc)
    && forall d :: d in ds && d.doc.device == doc.device ==> d.doc == doc || d.doc.version < doc.version
  }

  /** A device that is mapped, to an entity of its own. */
  ghost predicate Sole(emap: map<string, string>, device: string, entity: string) {
    && device != "" && entity != "" && device in emap && emap[device] == entity
    && forall d :: d in emap && emap[d] == entity ==> d == device
  }

  ghost predicate Done(d: Delivery, doc: Doc, entity: string) {
    d.doc == doc && !Broken(Desired(entity, doc.body), d.failure)
  }

  lemma TookElsewhere(home: Home, entity: string, other: string, body: Fields, failure: Option<Failure>)
    requires other != entity
    ensures FieldsOf(PerformAll(home, Took(Desired(other, body), failure)), entity) == FieldsOf(home, entity)
  {
    hide For, Desired, AllWrites, PerformAll;
    var calls := Took(Desired(other, body), failure);
    AllForEntity(other, body);
    assert forall call :: call in calls ==> call in Desired(other, body);
    PerformedAt(home, calls, other);
  }

  /** The device's version after some deliveries, and what its entity shows if that
      version is the newest document's. */
  ghost predicate Converges(x: Side, doc: Doc, entity: string) {
    && (doc.device in x.applied ==> x.applied[doc.device] <= doc.version)
    && (Known(x.applied, doc) ==>
          Agrees(FieldsOf(x.home, entity), Intended(entity, doc.body)) && LastFor(doc.device, x.actuated) == Some(doc))
  }

  lemma HandledOther(x: Side, emap: map<string, string>, d: Delivery, doc: Doc, entity: string)
    requires Sole(emap, doc.device, entity) && d.doc.device != doc.device && Converges(x, doc, entity)
    ensures Converges(Handle(x, emap, d), doc, entity)
    ensures Known(Handle(x, emap, d).applied, doc) == Known(x.applied, doc)
  {
    hide Desired, PerformAll, Took, Agrees, Intended;
    var other := Lookup(emap, d.doc.device);
    if other != "" {
      assert other != entity;
      TookElsewhere(x.home, entity, other, d.doc.body, d.failure);
      assert (x.actuated + [d.doc])[..|x.actuated|] == x.actuated;
    }
  }

  lemma HandledSame(x: Side, emap: map<string, string>, d: Delivery, doc: Doc, entity: string)
    requires Sole(emap, doc.device, entity) && d.doc.device == doc.device && Converges(x, doc, entity)
    requires d.doc == doc || d.doc.version < doc.version
    ensures Converges(Handle(x, emap, d), doc, entity)
    ensures Known(x.applied, doc) || Done(d, doc, entity) ==> Known(Handle(x, emap, d).applied, doc)
  {
    hide Desired, PerformAll, Intended;
    Realized(x.home, entity, doc.body);
  }

  /** The newest document wins over every order of deliveries, with repeats, with
      other devices' documents in between, and with applies that broke off: the
      device's version never exceeds it; once one delivery of it went through, the
      version is exactly it, it is the document last actuated, and the entity shows
      what it asks for, as if only it had been delivered last. */
  lemma {:induction false} NewestWins(x: Side, emap: map<string, string>, ds: seq<Delivery>, doc: Doc, entity: string)
    requires Sole(emap, doc.device, entity) && Newest(doc, x, ds)
    ensures var end := HandleAll(x, emap, ds);
      && Converges(end, doc, entity)
      && ((exists d :: d in ds && Done(d, doc, entity)) ==> Known(end.applied, doc))
  {
    hide Handle, Converges, Done, Sole, Known;
    if ds == [] {
      NothingYet(x, ds, doc, entity);
    } else {
      var init, d := ds[..|ds| - 1], ds[|ds| - 1];
      assert ds == init + [d] && d in ds;
      NewestWins(x, emap, init, doc, entity);
      var before := HandleAll(x, emap, init);
      if d.doc.device == doc.device {
        HandledSame(before, emap, d, doc, entity);
      } else {
        HandledOther(before, emap, d, doc, entity);
        assert !Done(d, doc, entity) by { NotDone(d, doc, entity); }
      }
    }
  }

  lemma NotDone(d: Delivery, doc: Doc, entity: string)
    requires d.doc.device != doc.device
    ensures !Done(d, doc, entity)
  {
  }

  lemma NothingYet(x: Side, ds: seq<Delivery>, doc: Doc, entity: string)
    requires Newest(doc, x, ds)
    ensures Converges(x, doc, entity)
  {
  }

  /** A document without a device, or for one that no entity is mapped to, does nothing at
      all, and so is applied when it is delivered again after the device was mapped. */
  lemma UnmappedIgnored(x: Side, emap: map<string, string>, d: Delivery, answer: Answer, s: State)
    requires d.doc.device == "" || d.doc.device !in emap || emap[d.doc.device] == ""
    ensures Handle(x, emap, d) == x && Reported(x, emap, d, answer) == None
    ensures s.emap == emap && d.doc in s.cloud.issued
            && (d.doc.device in s.agent.applied ==> d.doc.version > s.agent.applied[d.doc.device]) ==>
              Next(s, Deliver(d.doc)) == s
  {
    hide Desired;
    assert s.agent.tasks + [] == s.agent.tasks;
  }

  /** Two orders of delivery in each of which the newest document went through once
      leave the same version and the same values in every field that it addresses. */
  lemma OrderIndependent(
      x: Side, emap: map<string, string>, ds: seq<Delivery>, es: seq<Delivery>, doc: Doc, entity: string)
    requires Sole(emap, doc.device, entity) && Newest(doc, x, ds) && Newest(doc, x, es)
    requires (exists d :: d in ds && Done(d, doc, entity)) && (exists d :: d in es && Done(d, doc, entity))
    ensures var end, other := HandleAll(x, emap, ds), HandleAll(x, emap, es);
      && VersionOf(end.applied, doc.device) == VersionOf(other.applied, doc.device) == Some(doc.version)
      && (forall k :: k in Intended(entity, doc.body) ==>
            && k in FieldsOf(end.home, entity) && k in FieldsOf(other.home, entity)
            && FieldsOf(end.home, entity)[k] == FieldsOf(other.home, entity)[k])
  {
    hide HandleAll, Done, Sole, Newest, Intended, FieldsOf;
    NewestWins(x, emap, ds, doc, entity);
    NewestWins(x, emap, es, doc, entity);
  }

  // ---- the version store ----------------------------------------------------------------

  class VersionStore {
    var applied: Versions
    var file: Versions

    constructor (file: Versions)
      ensures this.file == applied == file
    {
      this.file, applied := file, file;
    }

    method Get(device: string) returns (version: Option<int>)
      ensures version == VersionOf(applied, device)
    {
      if device in applied {
        return Some(applied[device]);
      }
      return None;
    }

    /** `saved` tells whether the file could be replaced. */
    method Set(device: string, version: int, saved: bool)
      modifies this
      ensures applied == Record(old(applied), device, version)
      ensures file == if Known(old(applied), Doc(device, version, map[])) || !saved then old(file) else applied
    {
      if device in applied && version <= applied[device] {
        return;
      }
      applied := applied[device := version];
      Persist(saved);
    }

    method Persist(saved: bool)
      modifies `file
      ensures file == if saved then applied else old(file)
    {
      if saved {
        file := applied;
      }
    }
  }

  // ---- the handler --------------------------------------------------------------------------

  /** The report of a device: none if it is unmapped or its state cannot be read. */
  function ReportOf(applied: Versions, emap: map<string, string>, device: string, answer: Answer): Option<Report> {
    if Lookup(emap, device) == "" || !answer.ok then None
    else Some(Report(device, VersionOf(applied, device), answer.state))
  }

  /** The report that handling a delivery ends with, if any. */
  function Reported(x: Side, emap: map<string, string>, d: Delivery, answer: Answer): Option<Report> {
    var entity := Lookup(emap, d.doc.device);
    if d.doc.device == "" then None
    else if Known(x.applied, d.doc) then ReportOf(x.applied, emap, d.doc.device, answer)
    else if entity == "" || Broken(Desired(entity, d.doc.body), d.failure) then None
    else ReportOf(Handle(x, emap, d).applied, emap, d.doc.device, answer)
  }

  /** Reports handed to the broker, and those held back. */
  datatype Uplink = Uplink(sent: seq<Report>, buffer: seq<Report>)

  function Uplinked(u: Uplink, report: Option<Report>, answer: Answer): Uplink {
    if report.None? then u
    else Uplink(if answer.sent then u.sent + [report.value] else u.sent,
                if answer.failed then Buffer.Pushed(u.buffer, LIMIT, report.value) else u.buffer)
  }

  class Handler {
    const store: VersionStore
    var emap: map<string, string>
    var home: Home
    ghost var actuated: seq<Doc>
    var uplink: Uplink

    constructor (store: VersionStore, emap: map<string, string>, home: Home)
      ensures this.store == store && Now() == Side(store.applied, home, []) && this.emap == emap
    {
      this.store, this.emap, this.home, actuated, uplink := store, emap, home, [], Uplink([], []);
    }

    ghost function Now(): Side reads this, store {
      Side(store.applied, home, actuated)
    }

    method CallService(call: ServiceCall, took: bool)
      modifies `home
      ensures home == if took then Perform(old(home), call) else old(home)
    {
      if took {
        home := Perform(home, call);
      }
    }

    method PublishUplink(report: Report, answer: Answer)
      modifies `uplink
      ensures uplink == Uplinked(old(uplink), Some(report), answer)
    {
      if answer.sent {
        uplink := uplink.(sent := uplink.sent + [report]);
      }
      if answer.failed {
        uplink := uplink.(buffer := Buffer.Pushed(uplink.buffer, LIMIT, report));
      }
    }

    method ReportDeviceState(device: string, answer: Answer)
      modifies `uplink
      ensures uplink == Uplinked(old(uplink), ReportOf(store.applied, emap, device, answer), answer)
    {
      if Lookup(emap, device) == "" || !answer.ok {
        return;
      }
      var version := store.Get(device);
      PublishUplink(Report(device, version, answer.state), answer);
    }

    /** Performs a document's calls in order up to the first that fails. */
    method Apply(calls: seq<ServiceCall>, failure: Option<Failure>) returns (ok: bool)
      modifies `home
      ensures ok == !Broken(calls, failure)
      ensures home == PerformAll(old(home), Took(calls, failure))
    {
      hide Perform;
      for i := 0 to |calls|
        invariant home == PerformAll(old(home), calls[..i])
        invariant failure.Some? ==> failure.value.at >= i
      {
        PerformOneMore(old(home), calls, i);
        if failure.Some? && failure.value.at == i {
          CallService(calls[i], failure.value.took);
          return false;
        }
        CallService(calls[i], true);
      }
      assert calls[..|calls|] == calls;
      return true;
    }

    method HandleDesiredShadow(doc: Doc, failure: Option<Failure>, answer: Answer)
      modifies this, store
      ensures emap == old(emap) && Now() == Handle(old(Now()), emap, Delivery(doc, failure))
      ensures uplink == Uplinked(old(uplink), Reported(old(Now()), emap, Delivery(doc, failure), answer), answer)
    {
      hide PerformAll, Desired, Lookup;
      if doc.device == "" {
        return;
      }
      var applied := store.Get(doc.device);
      if applied.Some? && doc.version <= applied.value {
        ReportDeviceState(doc.device, answer);
        return;
      }
      var entity := Lookup(emap, doc.device);
      if entity == "" {
        return;
      }
      var calls := TranslateDesired(entity, doc.body);
      var ok := Apply(calls, failure);
      if !ok {
        return;
      }
      store.Set(doc.device, doc.version, true);
      actuated := actuated + [doc];
      ReportDeviceState(doc.device, answer);
    }
  }

  lemma {:induction false} PerformOneMore(home: Home, calls: seq<ServiceCall>, i: nat)
    requires i < |calls|
    ensures PerformAll(home, calls[..i + 1]) == Perform(PerformAll(home, calls[..i]), calls[i])
    decreases i
  {
    hide Perform;
    if i == 0 {
      assert calls[..1] == [calls[0]];
    } else {
      assert calls[..i + 1][1..] == calls[1..][..i] && calls[..i][1..] == calls[1..][..i - 1];
      PerformOneMore(Perform(home, calls[0]), calls[1..], i - 1);
    }
  }

  // ---- the handler is the protocol's handler, running alone ----------------------------------

  /** The report of a task that is past its calls, published. */
  ghost function Ending(s: State, device: string, answer: Answer): State {
    var report := ReportOf(s.agent.applied, s.emap, device, answer);
    if report.None? then s else Published(s, report.value, answer)
  }

  /** Where a task leads when nothing interleaves. */
  ghost function Outcome(s: State, i: nat, failure: Option<Failure>, answer: Answer): State
    requires i < |s.agent.tasks|
  {
    var t := s.agent.tasks[i];
    Drop(
      match t
      case Publishing(report) => Published(s, report, answer)
      case Stamping(device, state) =>
        Published(s, Report(device, VersionOf(s.agent.applied, device), state), answer)
      case Reading(device) => Ending(s, device, answer)
      case Applying(doc, entity, done) =>
        if failure.Some? && done <= failure.value.at < |Desired(entity, doc.body)| then s
        else Ending(Recorded(s, doc), doc.device, answer), i)
  }

  /** The step brings the handler closer to its end, which stays the same; or is its end. */
  ghost predicate Closer(s: State, i: nat, failure: Option<Failure>, answer: Answer, next: State)
    requires i < |s.agent.tasks|
  {
    if |next.agent.tasks| == |s.agent.tasks| then
      && StepsLeft(next.agent.tasks[i]) == StepsLeft(s.agent.tasks[i]) - 1
      && Outcome(next, i, failure, answer) == Outcome(s, i, failure, answer)
    else
      |next.agent.tasks| == i && next == Outcome(s, i, failure, answer)
  }

  lemma DropBecome(s: State, i: nat, t: Task)
    requires i < |s.agent.tasks|
    ensures Drop(Become(s, i, t), i) == Drop(s, i)
  {
    assert RemoveAt(Become(s, i, t).agent.tasks, i) == RemoveAt(s.agent.tasks, i);
  }

  /** What is published does not depend on what its handler has become. */
  lemma DropPublished(s: State, i: nat, t: Task, report: Report, answer: Answer)
    requires i < |s.agent.tasks|
    ensures Drop(Published(Become(s, i, t), report, answer), i) == Drop(Published(s, report, answer), i)
  {
    hide Buffer.Pushed;
    DropBecome(Published(s, report, answer), i, t);
  }

  lemma DropEnding(s: State, i: nat, t: Task, device: string, answer: Answer)
    requires i < |s.agent.tasks|
    ensures |Ending(s, device, answer).agent.tasks| == |s.agent.tasks|
    ensures Drop(Ending(Become(s, i, t), device, answer), i) == Drop(Ending(s, device, answer), i)
  {
    hide Buffer.Pushed, Lookup;
    DropBecome(s, i, t);
    var report := ReportOf(s.agent.applied, s.emap, device, answer);
    if report.Some? {
      DropPublished(s, i, t, report.value, answer);
    }
  }

  lemma CallCloser(s: State, i: nat, failure: Option<Failure>, answer: Answer)
    requires i == |s.agent.tasks| - 1 && s.agent.tasks[i].Applying?
    ensures Closer(s, i, failure, answer, Worked(s, i, AnswerTo(s.agent.tasks[i], failure, answer)))
  {
    hide Desired, Lookup, Buffer.Pushed, Record, Ending;
    var t := s.agent.tasks[i];
    var calls := |Desired(t.entity, t.doc.body)|;
    var r := Recorded(s, t.doc);
    if t.done >= calls {
      DropEnding(r, i, Reading(t.doc.device), t.doc.device, answer);
    } else if failure.None? || t.done != failure.value.at {
      var more := t.(done := t.done + 1);
      DropEnding(r, i, more, t.doc.device, answer);
      DropBecome(s, i, more);
      assert Recorded(Become(s, i, more), t.doc) == Become(r, i, more);
    }
  }

  lemma ReadCloser(s: State, i: nat, failure: Option<Failure>, answer: Answer)
    requires i == |s.agent.tasks| - 1 && s.agent.tasks[i].Reading?
    ensures Closer(s, i, failure, answer, Worked(s, i, answer))
  {
    hide Desired, Lookup, Buffer.Pushed, Record, Published;
    var d := s.agent.tasks[i].device;
    var stamping := Stamping(d, answer.state);
    DropPublished(s, i, stamping, Report(d, VersionOf(s.agent.applied, d), answer.state), answer);
  }

  lemma PublishCloser(s: State, i: nat, failure: Option<Failure>, answer: Answer)
    requires i == |s.agent.tasks| - 1 && (s.agent.tasks[i].Stamping? || s.agent.tasks[i].Publishing?)
    ensures Closer(s, i, failure, answer, Worked(s, i, answer))
  {
    hide Desired, Lookup, Buffer.Pushed, Record, Ending;
    var t := s.agent.tasks[i];
    if t.Stamping? {
      var report := Report(t.device, VersionOf(s.agent.applied, t.device), t.state);
      DropPublished(s, i, Publishing(report), report, answer);
    }
  }

  lemma OneStepCloser(s: State, i: nat, failure: Option<Failure>, answer: Answer)
    requires i == |s.agent.tasks| - 1
    ensures Closer(s, i, failure, answer, Worked(s, i, AnswerTo(s.agent.tasks[i], failure, answer)))
  {
    hide Closer, Worked;
    match s.agent.tasks[i] {
      case Applying(_, _, _) => CallCloser(s, i, failure, answer);
      case Reading(_) => ReadCloser(s, i, failure, answer);
      case _ => PublishCloser(s, i, failure, answer);
    }
  }

  lemma {:induction false} RunsToOutcome(s: State, i: nat, failure: Option<Failure>, answer: Answer, n: nat)
    requires i == |s.agent.tasks| - 1 && n >= StepsLeft(s.agent.tasks[i])
    ensures Steps(s, i, failure, answer, n) == Outcome(s, i, failure, answer)
    decreases n
  {
    hide StepsLeft, Outcome, Worked, AnswerTo;
    LeastSteps(s.agent.tasks[i]);
    OneStepCloser(s, i, failure, answer);
    var next := Worked(s, i, AnswerTo(s.agent.tasks[i], failure, answer));
    if |next.agent.tasks| == |s.agent.tasks| {
      RunsToOutcome(next, i, failure, answer, n - 1);
    } else {
      assert Steps(next, i, failure, answer, n - 1) == next;
    }
  }

  /** The version store and the uplink are as the delivery's specification says, and
      everything else of the protocol's state is as it was. */
  ghost predicate AsHandled(s: State, d: Delivery, answer: Answer, home: Home, actuated: seq<Doc>, end: State) {
    var x := Side(s.agent.applied, home, actuated);
    var report := Reported(x, s.emap, d, answer);
    && end.agent.applied == Handle(x, s.emap, d).applied
    && end.wire == s.wire + (if report.Some? && answer.sent then {report.value} else {})
    && end.agent.buffer == Uplinked(Uplink([], s.agent.buffer), report, answer).buffer
    && end.agent.tasks == s.agent.tasks && end.cloud == s.cloud
  }

  /** Any delivery whose handler runs alone in the protocol, whether a call fails part
      of the way, the state cannot be read, the device is unmapped or the document is
      known already, does to the version store and to the uplink what the handler's
      contract says, and leaves the rest. */
  lemma AloneIsHandle(
      s: State, doc: Doc, failure: Option<Failure>, answer: Answer, home: Home, actuated: seq<Doc>, n: nat)
    requires doc in s.cloud.issued && n >= |Desired(Lookup(s.emap, doc.device), doc.body)| + 4
    ensures AsHandled(s, Delivery(doc, failure), answer, home, actuated,
                      Steps(Next(s, Deliver(doc)), |s.agent.tasks|, failure, answer, n))
  {
    hide Steps, Lookup, Desired, Outcome, AsHandled;
    var i, delivered := |s.agent.tasks|, Next(s, Deliver(doc));
    var started := Received(s.agent.applied, s.emap, doc);
    if started == [] {
      assert s.agent.tasks + [] == s.agent.tasks;
      NoTaskNoStep(s, failure, answer, n);
      NothingStarted(s, doc, failure, answer, home, actuated);
    } else {
      assert started == [started[0]] && delivered.agent.tasks == s.agent.tasks + [started[0]];
      RunsToOutcome(delivered, i, failure, answer, n);
      if started[0].Reading? {
        KnownAlone(s, doc, failure, answer, home, actuated);
      } else {
        NewAlone(s, doc, failure, answer, home, actuated);
      }
    }
  }

  lemma NothingStarted(
      s: State, doc: Doc, failure: Option<Failure>, answer: Answer, home: Home, actuated: seq<Doc>)
    requires Received(s.agent.applied, s.emap, doc) == []
    ensures AsHandled(s, Delivery(doc, failure), answer, home, actuated, s)
  {
    hide Lookup, Desired, Buffer.Pushed;
  }

  lemma Added(s: State, t: Task)
    ensures RemoveAt(s.agent.tasks + [t], |s.agent.tasks|) == s.agent.tasks
  {
  }

  lemma KnownAlone(
      s: State, doc: Doc, failure: Option<Failure>, answer: Answer, home: Home, actuated: seq<Doc>)
    requires doc in s.cloud.issued && Received(s.agent.applied, s.emap, doc) == [Reading(doc.device)]
    ensures AsHandled(s, Delivery(doc, failure), answer, home, actuated,
                      Outcome(Next(s, Deliver(doc)), |s.agent.tasks|, failure, answer))
  {
    hide Lookup, Desired, Buffer.Pushed, Record, PerformAll;
    Added(s, Reading(doc.device));
  }

  lemma NewAlone(
      s: State, doc: Doc, failure: Option<Failure>, answer: Answer, home: Home, actuated: seq<Doc>)
    requires doc in s.cloud.issued
    requires Received(s.agent.applied, s.emap, doc) == [Applying(doc, Lookup(s.emap, doc.device), 0)]
    ensures AsHandled(s, Delivery(doc, failure), answer, home, actuated,
                      Outcome(Next(s, Deliver(doc)), |s.agent.tasks|, failure, answer))
  {
    hide Lookup, Desired, Buffer.Pushed, Record, PerformAll;
    Added(s, Applying(doc, Lookup(s.emap, doc.device), 0));
  }

  lemma NoTaskNoStep(s: State, failure: Option<Failure>, answer: Answer, n: nat)
    ensures Steps(s, |s.agent.tasks|, failure, answer, n) == s
  {
  }

  // ---- what reaches the cloud --------------------------------------------------------------------

  /** The report is handed to the broker if that works, and held back, as the newest, if
      publishing it fails; nothing else of the protocol's state changes. */
  ghost predicate SentOrHeld(s: State, report: Report, answer: Answer, end: State) {
    && end.wire == s.wire + (if answer.sent then {report} else {})
    && end.cloud == s.cloud && end.emap == s.emap && end.actuated == s.actuated
    && end.agent.applied == s.agent.applied && end.agent.disk == s.agent.disk && end.agent.tasks == s.agent.tasks
    && (if answer.failed then end.agent.buffer != [] && end.agent.buffer[|end.agent.buffer| - 1] == report
        else end.agent.buffer == s.agent.buffer)
  }

  lemma OutcomeSent(s: State, t: Task, report: Report, answer: Answer)
    requires t == Stamping(report.device, report.state) && report.version == VersionOf(s.agent.applied, report.device)
    ensures var i, more := |s.agent.tasks|, s.(agent := s.agent.(tasks := s.agent.tasks + [t]));
      SentOrHeld(s, report, answer, Outcome(more, i, None, answer))
  {
    Added(s, t);
  }

  /** A change in Home Assistant is reported as it was seen, with the version applied to
      its device. */
  lemma ChangeReported(s: State, device: string, state: Fields, answer: Answer)
    ensures var version := if device in s.agent.applied then Some(s.agent.applied[device]) else None;
      SentOrHeld(s, Report(device, version, state), answer,
                 Steps(Next(s, Changed(device, state)), |s.agent.tasks|, None, answer, 2))
  {
    hide Outcome, SentOrHeld;
    var t := Stamping(device, state);
    OutcomeSent(s, t, Report(device, VersionOf(s.agent.applied, device), state), answer);
    RunsToOutcome(Next(s, Changed(device, state)), |s.agent.tasks|, None, answer, 2);
  }

  /** On a connect the state of a mapped device is read and reported, unless it cannot be
      read. */
  lemma ReconcileReported(s: State, device: string, answer: Answer)
    ensures var end := Steps(Next(s, Reconcile(device)), |s.agent.tasks|, None, answer, 3);
      if device in s.emap && s.emap[device] != "" && answer.ok then
        SentOrHeld(s, Report(device, VersionOf(s.agent.applied, device), answer.state), answer, end)
      else end == s
  {
    hide Outcome;
    RunsToOutcome(Next(s, Reconcile(device)), |s.agent.tasks|, None, answer, 3);
    OutcomeRead(s, device, answer);
  }

  lemma OutcomeRead(s: State, device: string, answer: Answer)
    ensures var i, more := |s.agent.tasks|, Next(s, Reconcile(device));
      var end := Outcome(more, i, None, answer);
      if device in s.emap && s.emap[device] != "" && answer.ok then
        SentOrHeld(s, Report(device, VersionOf(s.agent.applied, device), answer.state), answer, end)
      else end == s
  {
    Added(s, Reading(device));
  }

  /** How many publishes fail in steps j to m of a run. */
  function Failures(actions: seq<Action>, j: nat, m: nat): nat
    requires m <= |actions|
    decreases m
  {
    if m <= j then 0
    else Failures(actions, j, m - 1) + if actions[m - 1].Work? && actions[m - 1].answer.failed then 1 else 0
  }

  /** The report is with the broker, or held back with at most n newer ones behind it. */
  ghost predicate Kept(s: State, report: Report, n: nat) {
    report in s.wire
    || exists p :: 0 <= p < |s.agent.buffer| && s.agent.buffer[p] == report && |s.agent.buffer| - 1 - p <= n
  }

  lemma StepKept(s: State, a: Action, report: Report, n: nat)
    requires Enabled(s, a) && a != Restart && Kept(s, report, n) && n < 512
    ensures var fails := a.Work? && a.answer.failed;
      (fails ==> n + 1 < 512) ==> Kept(Next(s, a), report, if fails then n + 1 else n)
  {
    hide Desired, Lookup, Ingested, Record, RemoveAt;
    var s' := Next(s, a);
    if report !in s.wire {
      var buffer := s.agent.buffer;
      var p :| 0 <= p < |buffer| && buffer[p] == report && |buffer| - 1 - p <= n;
      if a.Work? && s.agent.tasks[a.i].Publishing? && a.answer.failed {
        if n + 1 < 512 {
          var at := if |buffer| >= LIMIT then p - 1 else p;
          assert at >= 0 && s'.agent.buffer[at] == report;
        }
      } else if a == Flush {
        assert report in s'.wire;
      } else {
        assert s'.agent.buffer == buffer;
      }
    }
  }

  /** A report whose publishing failed is with the broker after the next flush, unless the
      agent restarts before or 512 more publishes fail. */
  lemma {:induction false} HeldArrives(
      states: seq<State>, actions: seq<Action>, j: nat, m: nat, report: Report)
    requires IsRun(states, actions) && j <= m < |states| && Kept(states[j], report, 0)
    requires Failures(actions, j, m) < 512 && forall x :: j <= x < m ==> actions[x] != Restart
    ensures Kept(states[m], report, Failures(actions, j, m))
    ensures m < |actions| && actions[m] == Flush ==> report in states[m + 1].wire
    decreases m
  {
    hide Kept;
    if m > j {
      HeldArrives(states, actions, j, m - 1, report);
      StepKept(states[m - 1], actions[m - 1], report, Failures(actions, j, m - 1));
    }
    if m < |actions| && actions[m] == Flush {
      FlushSends(states[m], report, Failures(actions, j, m));
    }
  }

  lemma FlushSends(s: State, report: Report, n: nat)
    requires Kept(s, report, n)
    ensures report in Next(s, Flush).wire
  {
  }
}
