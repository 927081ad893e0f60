/** What holds of update passes: the order of phases, the safety of the resume
    marker, and convergence over any series of passes and crashes. */
module UpdateTheorems {
  import opened Common
  import opened Fleet
  import opened World
  import opened SupervisorSpec
  import opened UpdateSpec

  // ---- phase order --------------------------------------------------------

  /** A trigger request made only when its phase's turn has come: something newer
      is known for it, every managed add-on is installed and fresh, and the
      phases before it have nothing left to do. */
  ghost predicate InOrder(store: Store, deps: seq<Addon>, e: Event) {
    && e.Request?
    && (forall s :: s in Managed(store, deps) ==> Fresh(e.before, s))
    && (e.op.UpdateOS? ==> UpdateAvailable(e.before.os))
    && (e.op.UpdateCore? ==> !UpdateAvailable(e.before.os) && UpdateAvailable(e.before.core))
    && (e.op.Update? ==>
          && e.op.slug == SELF && SelfOutdated(e.before)
          && !UpdateAvailable(e.before.os) && !UpdateAvailable(e.before.core))
    && (e.op.UpdateOS? || e.op.UpdateCore? || e.op.Update?)
  }

  /** One trigger, or the two endpoint forms of the self-update. */
  ghost predicate OneUpdate(es: seq<Event>) {
    |es| <= 1 || (es[0].Request? && es[1].Request? && es == [es[0], es[1]]
                  && es[0].op == Update(SELF, false) && es[1].op == Update(SELF, true))
  }

  /** The trigger requests of the self-update itself. */
  lemma SelfForms(w: World) returns (es: seq<Event>)
    ensures EndsWith(es, w, UpdateAddonLatest(w, SELF).w) && OneUpdate(es)
    ensures forall e :: e in es ==>
              e.Request? && e.op in {Update(SELF, false), Update(SELF, true)} && e.before == w.device
    ensures UpdateAddonLatest(w, SELF).reply.Good? ==> es != []
    ensures AllDone(w) && w.device.State(SELF).installed ==> |es| <= 1
  {
    hide Select;
    UpdateGains(w.device, SELF, false);
    if w.fates == [] { return []; }
    var first := Send(w, Update(SELF, false));
    es := [Request(Update(SELF, false), w.device, w.fates[0])];
    if first.reply == Err(true) && first.w.fates != [] {
      es := es + [Request(Update(SELF, true), first.w.device, first.w.fates[0])];
      var calls := Select(Call, w.trace);
      assert calls + [es[0]] + [es[1]] == calls + es;
    }
  }

  lemma SelfPhase(w: World) returns (es: seq<Event>)
    ensures var r := UpdateSelf(w);
      && Follows(w, r.w) && Gains(w.device, r.w.device) && EndsWith(es, w, r.w) && OneUpdate(es)
      && (forall e :: e in es ==>
            e.Request? && e.op.Update? && e.op.slug == SELF && SelfOutdated(e.before) && Gains(w.device, e.before))
      && (es != [] ==> SelfOutdated(w.device))
      && r.w.device.store == w.device.store
      && (r.reply == Good(false) ==> es == [])
      && (r.reply == Good(true) ==> es != [])
    ensures AllDone(w) ==> var r := UpdateSelf(w);
      && !r.reply.Err? && |es| <= 1
      && (r.reply == Good(false) ==> SelfCurrent(r.w.device))
      && (r.reply == Good(true) ==> Fresh(r.w.device, SELF))
  {
    hide Select, Send, GetAddonInfo, EnableAutoUpdate, UpdateAddonLatest;
    es := [];
    GainsTransitive();
    var a := GetAddonInfo(w, SELF);
    if a.reply.Good? && a.reply.value.installed {
      var b := EnableAutoUpdate(a.w, SELF, a.reply.value.autoUpdate);
      if b.reply.Good? && a.reply.value.updateAvailable {
        es := SelfForms(b.w);
      }
    }
  }

  lemma EndsWithAfter(es: seq<Event>, a: World, b: World, c: World)
    requires Without(Trigger, a, b) && EndsWith(es, b, c)
    ensures EndsWith(es, a, c)
  {
    hide Select;
  }

  /** A trigger request in its place among the reboot-prone phases, on a device
      that the add-on phase left as d. */
  ghost predicate InSystemOrder(d: Device, e: Event) {
    && e.Request? && Gains(d, e.before)
    && match e.op
       case UpdateOS => UpdateAvailable(d.os)
       case UpdateCore => !UpdateAvailable(d.os) && UpdateAvailable(d.core)
       case Update(slug, _) =>
         slug == SELF && SelfOutdated(e.before) && !UpdateAvailable(d.os) && !UpdateAvailable(d.core)
       case _ => false
  }

  lemma SystemInOrder(w: World) returns (es: seq<Event>)
    ensures var r := UpdateSystem(w);
      && Follows(w, r.w) && EndsWith(es, w, r.w) && OneUpdate(es)
      && (forall e :: e in es ==> InSystemOrder(w.device, e))
      && (r.reply == Good(true) ==> es != []) && (r.reply == Good(false) ==> es == [])
  {
    hide Select, UpdateOSLatest, UpdateCoreLatest, UpdateSelf, UpdateAvailable, Device.State, AllDone, Sincere;
    es := [];
    var os := UpdateOSLatest(w);
    if !Without(Trigger, w, os.w) {
      return [Request(UpdateOS, w.device, w.fates[1])];
    }
    if os.reply.Good? {
      var core := UpdateCoreLatest(os.w);
      if !Without(Trigger, os.w, core.w) {
        es := [Request(UpdateCore, w.device, os.w.fates[1])];
        EndsWithAfter(es, w, os.w, core.w);
      } else if core.reply.Good? {
        es := SelfPhase(core.w);
        EndsWithAfter(es, w, core.w, UpdateSelf(core.w).w);
      }
    }
  }

  lemma PhasesInOrder(w: World, deps: seq<Addon>) returns (es: seq<Event>)
    requires PlainSlugs(deps)
    ensures var r := Phases(w, deps);
      && Follows(w, r.w) && EndsWith(es, w, r.w) && OneUpdate(es)
      && (Sincere(w) ==> forall e :: e in es ==> InOrder(w.device.store, deps, e))
      && (r.reply == Good(true) ==> es != []) && (r.reply == Good(false) ==> es == [])
  {
    hide Select, UpdateAddons, UpdateSystem, UpdateAvailable, Managed, Device.State, AllDone, OneUpdate;
    es := [];
    var a := UpdateAddons(w, deps);
    if a.reply.Good? {
      es := SystemInOrder(a.w);
      EndsWithAfter(es, w, a.w, UpdateSystem(a.w).w);
    } else {
      assert OneUpdate([]) by { NoneIsOne(); }
    }
  }

  lemma NoneIsOne()
    ensures OneUpdate([])
  {
  }

  /** The events of one kind that came between two moments. */
  ghost function News(k: Kind, w: World, w': World): seq<Event> {
    var before := Select(k, w.trace);
    var after := Select(k, w'.trace);
    if before <= after then after[|before|..] else after
  }

  /** In every pass, failures and crashes included, an update is requested only in
      its turn, and nothing at all is requested after it. */
  lemma PhaseOrder(w: World, m: Manifest, id: string)
    requires PlainSlugs(m.addons)
    ensures var r := UpdateAll(w, Some(m), id); var es := News(Trigger, w, r.w);
      && EndsWith(es, w, r.w) && OneUpdate(es)
      && (Sincere(w) ==> forall e :: e in es ==> InOrder(w.device.store, m.addons, e))
      && (r.reply == Good(Triggered) ==> es != []) && (r.reply == Good(Converged) ==> es == [])
  {
    hide Select, Phases, Publish, Persist, InOrder, Sincere, AllDone;
    var b := Begin(w, id);
    var es := [];
    if b.reply.Good? {
      es := PhasesInOrder(b.w, m.addons);
    }
    assert EndsWith(es, w, UpdateAll(w, Some(m), id).w);
    assert News(Trigger, w, UpdateAll(w, Some(m), id).w) == es;
  }

  // ---- the resume marker --------------------------------------------------

  predicate Terminal(e: Event) {
    e.Report? && e.status != Started
  }

  /** The marks of one pass: the announcement when it was commanded, the marker
      set, and, unless it was cut or set off a restart, the marker cleared and
      then the terminal report. The file holds what was committed last. */
  ghost predicate PassMarks(id: string, ms: seq<Event>, file: Marker, r: Outcome<PassEnd>) {
    var n := if id != "" then 1 else 0;
    && |ms| <= n + 3
    && (n == 1 && |ms| > 0 ==> ms[0] == Report(Started, id))
    && (|ms| > n ==> ms[n] in {Committed(Marker(true, id)), WriteFailed})
    && (|ms| > n + 1 ==> ms[n + 1] in {Committed(CLEAR), WriteFailed})
    && (|ms| > n + 2 ==> ms[n + 2] in {Report(Ok, id), Report(Failed, id)})
    && r.w.file == (if |ms| > n + 1 && ms[n + 1].Committed? then CLEAR
                    else if |ms| > n && ms[n].Committed? then Marker(true, id)
                    else file)
    && !r.reply.Err?
    && (r.reply == Good(Triggered) ==> |ms| == n + 1)
    && (r.reply.Good? && |ms| == n + 1 ==> r.reply == Good(Triggered))
    && (r.reply == Good(Converged) <==> |ms| == n + 3 && ms[n + 2] == Report(Ok, id))
    && (r.reply == Good(Failure) <==> |ms| == n + 3 && ms[n + 2] == Report(Failed, id))
  }

  lemma FinishMarks(w: World, status: Status, id: string) returns (ms: seq<Event>)
    ensures var r := Finish(w, status, id);
      && Aside(w, r.w) && !r.reply.Err? && Marked(ms, w, r.w) && |ms| <= 2
      && (|ms| > 0 ==> ms[0] in {Committed(CLEAR), WriteFailed})
      && (|ms| > 1 ==> ms[1] == Report(status, id))
      && r.w.file == (if |ms| > 0 && ms[0].Committed? then CLEAR else w.file)
      && (r.reply.Good? <==> |ms| == 2)
      && (AllDone(w) && |ms| > 0 ==> ms[0].Committed?)
  {
    hide Select, Persist, Publish, AllDone, Sincere;
    ms := [];
    var p := Persist(w, CLEAR);
    if p.reply.Good? {
      ms := [Select(Mark, p.w.trace)[|Select(Mark, w.trace)|]];
      if Publish(p.w, status, id).reply.Good? {
        assert Select(Mark, w.trace) + ms + [Report(status, id)] == Select(Mark, w.trace) + [ms[0], Report(status, id)];
        ms := [ms[0], Report(status, id)];
      }
    }
  }

  lemma BeginMarks(w: World, id: string) returns (ms: seq<Event>)
    ensures var r := Begin(w, id); var n := if id != "" then 1 else 0;
      && Aside(w, r.w) && !r.reply.Err? && Marked(ms, w, r.w) && |ms| <= n + 1
      && (n == 1 && |ms| > 0 ==> ms[0] == Report(Started, id))
      && (|ms| > n ==> ms[n] in {Committed(Marker(true, id)), WriteFailed})
      && r.w.file == (if |ms| > n && ms[n].Committed? then Marker(true, id) else w.file)
      && (r.reply.Good? <==> |ms| == n + 1)
      && (AllDone(w) && |ms| > n ==> ms[n].Committed?)
  {
    hide Select, Persist, Publish, AllDone, Sincere;
    ms := [];
    var s := if id != "" then Publish(w, Started, id) else Outcome(w, Good(()));
    if s.reply.Good? {
      ms := if id != "" then [Report(Started, id)] else [];
      var p := Persist(s.w, Marker(true, id));
      if p.reply.Good? {
        var e := Select(Mark, p.w.trace)[|Select(Mark, s.w.trace)|];
        assert Select(Mark, w.trace) + ms + [e] == Select(Mark, w.trace) + (ms + [e]);
        ms := ms + [e];
      }
    }
  }

  lemma PhasesFollow(w: World, deps: seq<Addon>)
    ensures Follows(w, Phases(w, deps).w)
  {
    hide Select, UpdateAddons, UpdateOSLatest, UpdateCoreLatest, UpdateSelf, AllDone, Sincere;
    var a := UpdateAddons(w, deps);
    if a.reply.Good? {
      var os := UpdateOSLatest(a.w);
      if os.reply.Good? {
        var core := UpdateCoreLatest(os.w);
        var es := SelfPhase(core.w);
      }
    }
  }

  /** Whatever fails and wherever a pass is cut: its marks are those of PassMarks,
      and no call to Supervisor comes before the marker write has ended. */
  lemma MarkerSafety(w: World, manifest: Option<Manifest>, id: string)
    ensures var r := UpdateAll(w, manifest, id); var ms := News(Mark, w, r.w);
      && Marked(ms, w, r.w)
      && PassMarks(id, ms, w.file, r)
      && (!Without(Call, w, r.w) ==> |ms| > if id != "" then 1 else 0)
      && (AllDone(w) ==> WriteFailed !in ms)
  {
    hide Select, Begin, Phases, Finish, AllDone, Sincere;
    var before := Select(Mark, w.trace);
    var r := UpdateAll(w, manifest, id);
    var b := Begin(w, id);
    var ms := BeginMarks(w, id);
    if b.reply.Good? {
      var p := if manifest.None? then Outcome(b.w, Err(false)) else Phases(b.w, manifest.value.addons);
      if manifest.Some? { PhasesFollow(b.w, manifest.value.addons); }
      if p.reply.Err? || p.reply == Good(false) {
        var status := if p.reply.Err? then Failed else Ok;
        var end := FinishMarks(p.w, status, id);
        assert before + ms + end == before + (ms + end);
        ms := ms + end;
      }
    }
    assert Marked(ms, w, r.w);
    assert News(Mark, w, r.w) == ms;
  }

  /** From a pass's first call to Supervisor until it clears the marker, the file
      names this pass, wherever the pass is cut; a terminal report comes only after
      the clearing write; and a pass that ends by itself has cleared the marker
      exactly when it reports. All this if the disk takes the writes. */
  lemma CrashKeepsMarker(w: World, manifest: Option<Manifest>, id: string)
    requires WriteFailed !in News(Mark, w, UpdateAll(w, manifest, id).w)
    ensures var r := UpdateAll(w, manifest, id); var ms := News(Mark, w, r.w);
      && (!Without(Call, w, r.w) && Committed(CLEAR) !in ms ==> r.w.file == Marker(true, id))
      && (Committed(CLEAR) in ms ==> r.w.file == CLEAR)
      && (forall i :: 0 <= i < |ms| && Terminal(ms[i]) ==> i > 0 && ms[i - 1] == Committed(CLEAR))
      && (r.reply.Good? ==>
            (Committed(CLEAR) in ms <==> Report(Ok, id) in ms || Report(Failed, id) in ms)
            && (Committed(CLEAR) in ms <==> r.reply != Good(Triggered)))
  {
    hide Select, UpdateAll;
    MarkerSafety(w, manifest, id);
    var ms := News(Mark, w, UpdateAll(w, manifest, id).w);
    var n := if id != "" then 1 else 0;
    var r := UpdateAll(w, manifest, id);
    assert |ms| > n ==> ms[n] in ms && ms[n] == Committed(Marker(true, id));
    assert |ms| > n + 1 ==> ms[n + 1] in ms && ms[n + 1] == Committed(CLEAR);
    assert |ms| > n + 2 ==> ms[n + 2] in ms;
    match r.reply {
      case Good(Triggered) =>
        assert forall i :: 0 <= i < |ms| ==> ms[i] in {Report(Started, id), Committed(Marker(true, id))};
      case _ =>
    }
  }

  // ---- convergence --------------------------------------------------------

  /** How many reboot-prone phases still have work to do. */
  function Rank(d: Device): nat {
    One(UpdateAvailable(d.os)) + One(UpdateAvailable(d.core)) + One(SelfOutdated(d))
  }

  /** No add-on gets worse and no update becomes pending. */
  ghost predicate Keeps(d: Device, d': Device) {
    && (forall s :: d'.State(s).NoWorseThan(d.State(s)))
    && (UpdateAvailable(d'.os) ==> UpdateAvailable(d.os))
    && (UpdateAvailable(d'.core) ==> UpdateAvailable(d.core))
  }

  ghost predicate ManagedCurrent(store: Store, deps: seq<Addon>, d: Device) {
    forall s :: s in Managed(store, deps) ==> Current(d, s)
  }

  /** However the reboot-prone phases go, nothing gets worse. */
  lemma SystemKeeps(w: World)
    ensures var r := UpdateSystem(w);
      && Keeps(w.device, r.w.device) && Rank(r.w.device) <= Rank(w.device)
      && r.w.device.store == w.device.store
  {
    hide Select, UpdateOSLatest, UpdateCoreLatest, UpdateSelf, UpdateAvailable, Op.Apply, Device.State, AllDone;
    hide Sincere;
    UpdatedSystem(w.device);
    KeepsItself(w.device);
    var os := UpdateOSLatest(w);
    if os.reply == Good(false) {
      var core := UpdateCoreLatest(os.w);
      if core.reply == Good(false) {
        var es := SelfPhase(core.w);
      }
    }
  }

  lemma PhasesKeep(w: World, deps: seq<Addon>)
    ensures var r := Phases(w, deps);
      && Keeps(w.device, r.w.device) && Rank(r.w.device) <= Rank(w.device)
      && (Settled(w.device.store, deps) ==> r.w.device.store == w.device.store)
  {
    hide Select, UpdateAddons, UpdateSystem, UpdateAvailable, Settled, Device.State, Gains, Keeps, Rank;
    hide AllDone, Sincere;
    var a := UpdateAddons(w, deps);
    KeepsItself(a.w.device);
    KeepsTransitive(w.device, a.w.device, a.w.device);
    if a.reply.Good? {
      SystemKeeps(a.w);
      KeepsTransitive(w.device, a.w.device, UpdateSystem(a.w).w.device);
    }
  }

  /** However a pass goes, cut, failing or deceived, it makes nothing worse, and leaves
      the store alone once that is complete. */
  lemma PassKeeps(w: World, m: Manifest, id: string)
    ensures var r := UpdateAll(w, Some(m), id);
      && Keeps(w.device, r.w.device) && Rank(r.w.device) <= Rank(w.device)
      && (Settled(w.device.store, m.addons) ==> r.w.device.store == w.device.store)
  {
    hide Select, Begin, Phases, Finish, Settled, Keeps, Rank, AllDone, Sincere;
    KeepsItself(w.device);
    var b := Begin(w, id);
    var ms := BeginMarks(w, id);
    if b.reply.Good? {
      PhasesKeep(b.w, m.addons);
      var p := Phases(b.w, m.addons);
      if p.reply.Err? || p.reply == Good(false) {
        var end := FinishMarks(p.w, if p.reply.Err? then Failed else Ok, id);
      }
    }
  }

  /** What the reboot-prone phases come to when every call works. */
  lemma SystemProgress(w: World)
    requires AllDone(w)
    ensures var r := UpdateSystem(w);
      && Follows(w, r.w) && !r.reply.Err? && Keeps(w.device, r.w.device) && Rank(r.w.device) <= Rank(w.device)
      && r.w.device.store == w.device.store
      && (r.reply == Good(true) ==> Rank(r.w.device) < Rank(w.device))
      && (r.reply == Good(false) ==> Rank(r.w.device) == 0 && SelfCurrent(r.w.device))
  {
    hide Select, UpdateOSLatest, UpdateCoreLatest, UpdateSelf, UpdateAvailable, Op.Apply, Device.State;
    assert Sincere(w);
    var os := UpdateOSLatest(w);
    UpdatedSystem(w.device);
    if os.reply == Good(false) {
      var core := UpdateCoreLatest(os.w);
      if core.reply == Good(false) {
        var es := SelfPhase(core.w);
      }
    }
  }

  lemma OneRestart(w: World)
    requires AllDone(w)
    ensures var r := UpdateSystem(w); r.reply.Good? ==> |News(Trigger, w, r.w)| == if r.reply.value then 1 else 0
  {
    hide Select, UpdateOSLatest, UpdateCoreLatest, UpdateSelf, UpdateAvailable, Device.State, Gains;
    var os := UpdateOSLatest(w);
    if os.reply == Good(false) {
      var core := UpdateCoreLatest(os.w);
      if core.reply == Good(false) {
        var es := SelfPhase(core.w);
      }
    }
  }

  lemma KeepsTransitive(a: Device, b: Device, c: Device)
    requires Gains(a, b) && Keeps(b, c)
    ensures Keeps(a, c) && Rank(b) <= Rank(a)
    ensures forall s :: Current(b, s) ==> Current(c, s)
  {
    hide UpdateAvailable, Device.State;
  }

  /** What the phases come to when every call works. */
  lemma PhasesProgress(w: World, deps: seq<Addon>)
    requires AllDone(w) && PlainSlugs(deps)
    ensures var r := Phases(w, deps);
      && Follows(w, r.w) && !r.reply.Err? && Keeps(w.device, r.w.device) && Rank(r.w.device) <= Rank(w.device)
      && (r.reply.Good? ==> ManagedCurrent(w.device.store, deps, r.w.device)
                            && r.w.device.store == StoreAfter(w.device.store, deps))
      && (r.reply == Good(true) ==> Rank(r.w.device) < Rank(w.device) && |News(Trigger, w, r.w)| == 1)
      && (r.reply == Good(false) ==> Rank(r.w.device) == 0 && SelfCurrent(r.w.device) && Without(Trigger, w, r.w))
      && (Settled(w.device.store, deps) ==> r.w.device.store == w.device.store)
  {
    hide Select, UpdateAddons, UpdateSystem, UpdateAvailable, Managed, Settled, StoreAfter, Device.State;
    hide Gains, Keeps, Rank, SelfCurrent, Current;
    assert Sincere(w);
    var a := UpdateAddons(w, deps);
    KeepsItself(a.w.device);
    KeepsTransitive(w.device, a.w.device, a.w.device);
    if a.reply.Good? {
      var r := UpdateSystem(a.w);
      SystemProgress(a.w);
      KeepsTransitive(w.device, a.w.device, r.w.device);
      if r.reply.Good? {
        OneRestart(a.w);
        var es := SystemInOrder(a.w);
      }
    }
  }

  lemma KeepsItself(d: Device)
    ensures Keeps(d, d)
  {
  }

  /** An OS or Core update takes one phase off the rank and touches no add-on. */
  lemma UpdatedSystem(d: Device)
    ensures forall op :: op in {UpdateOS, UpdateCore} ==>
      var d' := op.Apply(d);
      Keeps(d, d') && d'.store == d.store && (forall s :: d'.State(s) == d.State(s)) && Rank(d') <= Rank(d)
    ensures UpdateAvailable(d.os) ==> Rank(UpdateOS.Apply(d)) < Rank(d)
    ensures UpdateAvailable(d.core) ==> Rank(UpdateCore.Apply(d)) < Rank(d)
  {
    hide UpdateAvailable;
    LatestIsCurrent(d.os.latest);
    LatestIsCurrent(d.core.latest);
  }

  lemma LatestIsCurrent(v: string)
    ensures !UpdateAvailable(VersionInfo(v, v))
  {
  }

  /** A pass whose calls all work never fails. It either sets off exactly one
      restart, with its marker left for the boot to find, and then one phase fewer
      is outdated; or it clears the marker and reports ok, and then nothing is
      outdated. A pass that is cut makes nothing worse. */
  lemma PassProgress(w: World, m: Manifest, id: string)
    requires AllDone(w) && PlainSlugs(m.addons)
    ensures var r := UpdateAll(w, Some(m), id);
      && r.reply in {Crash, Good(Triggered), Good(Converged)}
      && Keeps(w.device, r.w.device) && Rank(r.w.device) <= Rank(w.device)
      && (r.reply.Good? ==> ManagedCurrent(w.device.store, m.addons, r.w.device)
                            && r.w.device.store == StoreAfter(w.device.store, m.addons))
      && (r.reply == Good(Triggered) ==>
            Rank(r.w.device) < Rank(w.device) && r.w.file == Marker(true, id) && |News(Trigger, w, r.w)| == 1)
      && (r.reply == Good(Converged) ==>
            Rank(r.w.device) == 0 && SelfCurrent(r.w.device) && r.w.file == CLEAR && Without(Trigger, w, r.w)
            && Report(Ok, id) in News(Mark, w, r.w))
      && (Settled(w.device.store, m.addons) ==> r.w.device.store == w.device.store)
  {
    hide Select, Begin, Phases, Finish, UpdateAvailable, Managed, StoreAfter, Settled;
    MarkerSafety(w, Some(m), id);
    var b := Begin(w, id);
    var ms := BeginMarks(w, id);
    if b.reply.Good? {
      PhasesProgress(b.w, m.addons);
      var p := Phases(b.w, m.addons);
      if p.reply == Good(false) {
        var end := FinishMarks(p.w, Ok, id);
      }
    }
    var all := News(Mark, w, UpdateAll(w, Some(m), id).w);
    assert forall i :: 0 <= i < |all| ==> all[i] in all;
  }

  // ---- the store settles ----------------------------------------------------

  /** The same store with more slugs at its end and more repositories. */
  ghost predicate Grown(a: Store, b: Store) {
    a.slugs <= b.slugs && (forall r :: r in a.repos ==> r in b.repos) && a.catalog == b.catalog
  }

  lemma TurnGrows(store: Store, dep: Addon)
    ensures Grown(store, AtTurn(store, dep))
  {
    hide Resolved;
  }

  lemma {:induction false} AfterGrows(store: Store, deps: seq<Addon>)
    ensures Grown(store, StoreAfter(store, deps))
    decreases |deps|
  {
    hide AtTurn;
    if deps != [] {
      TurnGrows(store, deps[0]);
      AfterGrows(if deps[0].matchName == AGENT_MATCH then store else AtTurn(store, deps[0]), deps[1..]);
    }
  }

  lemma ResolvedStays(a: Store, b: Store, dep: Addon)
    requires Grown(a, b) && Resolved(a, dep).Some?
    ensures Resolved(b, dep) == Resolved(a, dep)
  {
    if dep.slug == "" {
      FirstMatchStable(a.slugs, b.slugs[|a.slugs|..], dep);
      assert b.slugs == a.slugs + b.slugs[|a.slugs|..];
    }
  }

  /** After its turn an add-on resolves for good, or its repository is there for good. */
  lemma TurnSettles(store: Store, dep: Addon, later: Store)
    requires Grown(AtTurn(store, dep), later)
    ensures AtTurn(later, dep) == later
  {
    hide Resolved;
    if Resolved(store, dep).Some? {
      ResolvedStays(store, later, dep);
    }
  }

  /** From the end of a pass on, every repository is registered that any add-on of
      the manifest would register. */
  lemma {:induction false} SettledAfter(store: Store, deps: seq<Addon>, later: Store)
    requires Grown(StoreAfter(store, deps), later)
    ensures Settled(later, deps)
    decreases |deps|
  {
    hide AtTurn, Grown;
    if deps != [] {
      var head, rest := deps[0], deps[1..];
      assert deps == [head] + rest;
      if head.matchName == AGENT_MATCH {
        SettledAfter(store, rest, later);
      } else {
        var at := AtTurn(store, head);
        SettledAfter(at, rest, later);
        AfterGrows(at, rest);
        GrownTransitive(at, StoreAfter(at, rest), later);
        TurnSettles(store, head, later);
      }
    }
  }

  lemma GrownTransitive(a: Store, b: Store, c: Store)
    requires Grown(a, b) && Grown(b, c)
    ensures Grown(a, c)
  {
  }

  /** On a settled store a pass manages every add-on that resolves. */
  lemma {:induction false} AllManaged(store: Store, deps: seq<Addon>)
    requires Settled(store, deps)
    ensures forall dep :: dep in deps && dep.matchName != AGENT_MATCH && Resolved(store, dep).Some? ==>
              Resolved(store, dep).value in Managed(store, deps)
    decreases |deps|
  {
    hide AtTurn, Resolved;
    if deps != [] {
      var head, rest := deps[0], deps[1..];
      assert deps == [head] + rest;
      assert head.matchName != AGENT_MATCH ==> AtTurn(store, head) == store;
      AllManaged(store, rest);
    }
  }

  /** A request made with every managed add-on that resolves installed and fresh. */
  ghost predicate AllFresh(store: Store, deps: seq<Addon>, e: Event) {
    e.Request? && forall dep :: dep in deps && dep.matchName != AGENT_MATCH && Resolved(store, dep).Some? ==>
                    Fresh(e.before, Resolved(store, dep).value)
  }

  /** On a settled store no restart is set off before that. */
  lemma SettledOrder(w: World, m: Manifest, id: string)
    requires Sincere(w) && PlainSlugs(m.addons) && Settled(w.device.store, m.addons)
    ensures var w' := UpdateAll(w, Some(m), id).w;
      && w'.device.store == w.device.store
      && forall e :: e in News(Trigger, w, w') ==> AllFresh(w.device.store, m.addons, e)
  {
    hide UpdateAll, Resolved, Settled, Managed, Select, Sincere, PlainSlugs, UpdateAvailable, Device.State, Keeps, Rank;
    PhaseOrder(w, m, id);
    AllManaged(w.device.store, m.addons);
    PassKeeps(w, m, id);
  }

  /** One pass and the way it goes. */
  datatype PassRun = PassRun(id: string, fates: seq<Fate>)

  /** Every effect of the pass, up to where it may be cut, works. */
  ghost predicate AllEffectsWork(p: PassRun) {
    forall i :: 0 <= i < |p.fates| ==> p.fates[i] == Done
  }

  /** The passes in turn, each on what the one before left of device and marker, and
      how those ended whose effects all worked and that were not cut. The others may
      be cut, fail or be told lies in any way. */
  ghost function Series(w: World, m: Manifest, runs: seq<PassRun>): (World, seq<PassEnd>) {
    if runs == [] then (w, []) else
    var (w, ends) := Series(w, m, runs[..|runs| - 1]);
    var p := runs[|runs| - 1];
    var r := UpdateAll(w.(fates := p.fates), Some(m), p.id);
    (r.w, if AllEffectsWork(p) && r.reply.Good? then ends + [r.reply.value] else ends)
  }

  /** Every managed add-on that resolves now is installed, fresh and self-updating. */
  ghost predicate ResolvableCurrent(d: Device, deps: seq<Addon>) {
    forall dep :: dep in deps && dep.matchName != AGENT_MATCH && Resolved(d.store, dep).Some? ==>
      Current(d, Resolved(d.store, dep).value)
  }

  lemma StaysCurrent(d: Device, d': Device, deps: seq<Addon>)
    requires ResolvableCurrent(d, deps) && Keeps(d, d') && d'.store == d.store
    ensures ResolvableCurrent(d', deps)
  {
    hide Resolved, Device.State;
  }

  lemma AllCurrent(d: Device, d': Device, deps: seq<Addon>)
    requires Settled(d.store, deps) && d'.store == d.store && ManagedCurrent(d.store, deps, d')
    ensures ResolvableCurrent(d', deps)
  {
    hide Resolved, Device.State, Managed, Settled;
    AllManaged(d.store, deps);
  }

  /** What a finished working pass leaves of the store and of what it manages. */
  lemma StoreProgress(w: World, m: Manifest, id: string)
    requires AllDone(w) && PlainSlugs(m.addons)
    ensures var r := UpdateAll(w, Some(m), id);
      r.reply.Good? ==>
        && Settled(r.w.device.store, m.addons)
        && (Settled(w.device.store, m.addons) ==> ResolvableCurrent(r.w.device, m.addons))
  {
    hide UpdateAll, Settled, StoreAfter, Managed, ResolvableCurrent, Grown, ManagedCurrent, Keeps, Rank;
    PassProgress(w, m, id);
    var r := UpdateAll(w, Some(m), id);
    if r.reply.Good? {
      GrownItself(r.w.device.store);
      SettledAfter(w.device.store, m.addons, r.w.device.store);
      if Settled(w.device.store, m.addons) {
        AllCurrent(w.device, r.w.device, m.addons);
      }
    }
  }

  lemma GrownItself(store: Store)
    ensures Grown(store, store)
  {
  }

  /** However working, crashed and failing passes follow each other, the finished
      working ones first set off restarts, at most one for each outdated phase, and
      from then on converge; the first of them completes the store, and from the
      second on every managed add-on that resolves is current. */
  lemma {:induction false} SeriesProgress(w: World, m: Manifest, runs: seq<PassRun>) returns (restarts: nat)
    requires PlainSlugs(m.addons)
    ensures var (w', ends) := Series(w, m, runs);
      && restarts <= |ends|
      && (forall j :: 0 <= j < |ends| ==> ends[j] == if j < restarts then Triggered else Converged)
      && restarts + Rank(w'.device) <= Rank(w.device)
      && (restarts < |ends| ==> Rank(w'.device) == 0
                                && (w.device.State(SELF).installed ==> Current(w'.device, SELF)))
      && Keeps(w.device, w'.device)
      && (|ends| >= 1 ==> Settled(w'.device.store, m.addons))
      && (|ends| >= 2 ==> ResolvableCurrent(w'.device, m.addons))
    decreases |runs|
  {
    hide UpdateAll, Rank, Settled, ResolvableCurrent, Keeps, PlainSlugs, Device.State, Current;
    restarts := 0;
    if runs == [] {
      KeepsItself(w.device);
    } else {
      var init, p := runs[..|runs| - 1], runs[|runs| - 1];
      restarts := SeriesProgress(w, m, init);
      var (v, ends) := Series(w, m, init);
      var start := v.(fates := p.fates);
      var r := UpdateAll(start, Some(m), p.id);
      PassKeeps(start, m, p.id);
      KeepsChain(w.device, v.device, r.w.device);
      KeepsSelf(w.device, v.device, r.w.device);
      if |ends| >= 2 {
        StaysCurrent(v.device, r.w.device, m.addons);
      }
      if AllEffectsWork(p) && r.reply.Good? {
        PassProgress(start, m, p.id);
        StoreProgress(start, m, p.id);
        if r.reply == Good(Triggered) {
          restarts := restarts + 1;
        }
      }
    }
  }

  lemma KeepsChain(a: Device, b: Device, c: Device)
    ensures Keeps(a, b) && Keeps(b, c) ==> Keeps(a, c)
  {
    hide Device.State;
  }

  lemma KeepsSelf(a: Device, b: Device, c: Device)
    ensures Keeps(b, c) && Current(b, SELF) ==> Current(c, SELF)
    ensures Keeps(a, b) && Keeps(b, c) && SelfCurrent(c) && a.State(SELF).installed ==> Current(c, SELF)
  {
    hide Device.State;
  }

  /** Four finished passes whose effects work are enough, whatever crashed, failing
      or deceived ones lie between: one of the first four reports ok, the last one
      does too, nothing is outdated, and every managed add-on that resolves, and
      the agent itself if it was there, is installed, fresh and self-updating. */
  lemma Convergence(w: World, m: Manifest, runs: seq<PassRun>)
    requires PlainSlugs(m.addons)
    ensures var (w', ends) := Series(w, m, runs);
      |ends| >= 4 ==>
      && Converged in ends[..4] && ends[|ends| - 1] == Converged
      && !UpdateAvailable(w'.device.os) && !UpdateAvailable(w'.device.core) && !SelfOutdated(w'.device)
      && (w.device.State(SELF).installed ==> Current(w'.device, SELF))
      && ResolvableCurrent(w'.device, m.addons)
  {
    hide Series, UpdateAvailable, ResolvableCurrent, PlainSlugs, Current;
    var restarts := SeriesProgress(w, m, runs);
    var ends := Series(w, m, runs).1;
    if |ends| >= 4 {
      assert ends[..4][3] == Converged;
    }
  }

  lemma NotTheAlias(a: Addon)
    requires if a.slug != "" then |a.slug| > 4 else |a.matchName| > 4
    ensures !a.Resolves(SELF)
  {
  }

  /** The shipped manifest meets the condition above. */
  lemma ShippedManifest()
    ensures PlainSlugs(SHIPPED.addons)
  {
    hide Addon.Resolves;
    forall dep | dep in SHIPPED.addons ensures !dep.Resolves(SELF) {
      NotTheAlias(dep);
    }
  }
}
