/** What an update pass reports, told by its requests and their answers
    (internal/agent/update.go): it fails exactly if one of them is answered in a way that
    it cannot go on from, it asks for nothing that is not needed, and `ok` means that
    everything is current. */
module UpdateOutcome {
  import opened Common
  import opened Fleet
  import opened World
  import opened SupervisorSpec
  import opened UpdateSpec
  import opened UpdateTheorems

  // ---- answers that end a pass ------------------------------------------------------------

  predicate Lost(e: Event)
    requires e.Request?
  {
    e.fate == LostBefore || e.fate == LostAfter
  }

  predicate Refused(e: Event)
    requires e.Request?
  {
    e.fate == Rejected || (e.fate == Done && !e.op.Accepts(e.before))
  }

  /** Reloading the store and switching auto-update on are best-effort, an add-on whose
      info is refused counts as not installed, and a refused first form of an
      installation or an update is followed by the second. */
  predicate Fatal(e: Event) {
    e.Request? &&
    match e.op
    case Reload => false
    case SetAutoUpdate(_, _) => false
    case GetInfo(_) => Lost(e)
    case Install(_, legacy) => Lost(e) || (legacy && Refused(e))
    case Update(_, legacy) => Lost(e) || (legacy && Refused(e))
    case _ => Lost(e) || Refused(e)
  }

  /** The request is one that a pass over these add-ons has reason to make. Only an add-on
      whose info was refused although it is installed may be installed again, or have
      its auto-update switched on again. */
  ghost predicate Needed(deps: seq<Addon>, misread: bool, e: Event) {
    e.Request? &&
    match e.op
    case GetStore => true
    case GetInfo(slug) => slug == SELF || Manages(deps, slug)
    case GetOS => true
    case GetCore => true
    case AddRepository(url) => Lacks(deps, url, e.before.store)
    case Reload => true
    case Install(slug, _) => Manages(deps, slug) && (misread || !e.before.State(slug).installed)
    case Update(slug, _) => (slug == SELF || Manages(deps, slug)) && e.before.State(slug).outdated
    case SetAutoUpdate(slug, on) =>
      (slug == SELF || Manages(deps, slug)) && on
      && (misread || !e.before.State(slug).installed || !e.before.State(slug).autoUpdate)
    case UpdateOS => UpdateAvailable(e.before.os)
    case UpdateCore => UpdateAvailable(e.before.core)
    case _ => false
  }

  ghost predicate Manages(deps: seq<Addon>, slug: string) {
    exists dep :: dep in deps && dep.matchName != AGENT_MATCH && dep.Resolves(slug)
  }

  /** Some add-on of the manifest does not resolve and comes from that repository. */
  ghost predicate Lacks(deps: seq<Addon>, url: string, store: Store) {
    exists dep :: dep in deps && dep.matchName != AGENT_MATCH && !dep.core && dep.repository == url != ""
                  && Resolved(store, dep).None?
  }

  ghost predicate Called(es: seq<Event>, w: World, w': World) {
    Select(Call, w'.trace) == Select(Call, w.trace) + es
  }

  ghost predicate Clean(es: seq<Event>) {
    forall e :: e in es ==> !Fatal(e)
  }

  ghost predicate AnyMisread(es: seq<Event>) {
    exists e :: e in es && e.Misleads()
  }

  ghost predicate SelfMisread(es: seq<Event>) {
    exists e :: e in es && e.Misleads() && e.op == GetInfo(SELF)
  }

  ghost predicate AllNeeded(deps: seq<Addon>, es: seq<Event>) {
    forall e :: e in es ==> Needed(deps, AnyMisread(es), e)
  }

  lemma NeededThen(deps: seq<Addon>, es: seq<Event>, more: seq<Event>)
    requires AllNeeded(deps, es) && AllNeeded(deps, more)
    ensures AllNeeded(deps, es + more)
  {
    hide Lacks, Manages, Device.State, UpdateAvailable;
    assert AnyMisread(es) || AnyMisread(more) ==> AnyMisread(es + more) by {
      assert forall e :: e in es || e in more ==> e in es + more;
    }
  }

  /** The requests es were made; the work ends in an error exactly if the last one was
      answered fatally, and no other one was. */
  ghost predicate Told<T>(es: seq<Event>, w: World, r: Outcome<T>) {
    && Called(es, w, r.w)
    && if r.reply.Err? then es != [] && Clean(es[..|es| - 1]) && Fatal(es[|es| - 1]) else Clean(es)
  }

  lemma ToldThen<T, U>(es: seq<Event>, w: World, first: Outcome<T>, more: seq<Event>, then_: Outcome<U>)
    requires Told(es, w, first) && !first.reply.Err? && Told(more, first.w, then_)
    ensures Told(es + more, w, then_)
  {
    hide Fatal, Select;
    assert Select(Call, w.trace) + es + more == Select(Call, w.trace) + (es + more);
    if then_.reply.Err? {
      assert (es + more)[..|es + more| - 1] == es + more[..|more| - 1];
    }
  }

  /** One request. */
  lemma SendTold(w: World, op: Op) returns (es: seq<Event>)
    ensures var r := Send(w, op);
      && Called(es, w, r.w)
      && (r.reply.Crash? <==> es == [])
      && (es != [] ==>
            && es == [Request(op, w.device, w.fates[0])] && w.fates != []
            && (r.reply == Err(false) <==> Lost(es[0])) && (r.reply == Err(true) <==> Refused(es[0])))
  {
    hide Select, Op.Apply, Op.Accepts;
    es := if w.fates == [] then [] else [Request(op, w.device, w.fates[0])];
  }

  lemma PlainTold(w: World, op: Op) returns (es: seq<Event>)
    requires op in {GetStore, GetOS, GetCore, UpdateOS, UpdateCore} || op.AddRepository?
    ensures Told(es, w, Send(w, op)) && |es| <= 1 && (es == [] ==> Send(w, op).reply.Crash?)
    ensures forall e :: e in es ==> e.Request? && e.op == op && e.before == w.device
  {
    hide Select, Send;
    es := SendTold(w, op);
    assert es != [] ==> es[..|es| - 1] == [];
  }

  /** What the client's operations on one add-on ask for, and how they end. */
  ghost predicate Sound<T>(deps: seq<Addon>, es: seq<Event>, w: World, r: Outcome<T>) {
    Told(es, w, r) && AllNeeded(deps, es)
  }

  lemma SoundThen<T, U>(
      deps: seq<Addon>, es: seq<Event>, w: World, first: Outcome<T>, more: seq<Event>, then_: Outcome<U>)
    requires Sound(deps, es, w, first) && !first.reply.Err? && Sound(deps, more, first.w, then_)
    ensures Sound(deps, es + more, w, then_)
  {
    hide Told, AllNeeded;
    ToldThen(es, w, first, more, then_);
    NeededThen(deps, es, more);
  }

  lemma NothingSound<T>(deps: seq<Addon>, w: World, r: Outcome<T>)
    requires r.w == w && !r.reply.Err?
    ensures Sound(deps, [], w, r)
  {
  }

  /** The same requests and the same error or none. */
  lemma SoundAs<T, U>(deps: seq<Addon>, es: seq<Event>, w: World, r: Outcome<T>, q: Outcome<U>)
    requires Sound(deps, es, w, r) && q.w == r.w && (q.reply.Err? <==> r.reply.Err?)
    ensures Sound(deps, es, w, q)
  {
  }

  lemma ResolveSound(deps: seq<Addon>, w: World, a: Addon) returns (es: seq<Event>)
    ensures Sound(deps, es, w, ResolveAddonSlug(w, a))
  {
    hide Select, Send, Told;
    if a.slug != "" {
      es := [];
      NothingSound(deps, w, ResolveAddonSlug(w, a));
    } else {
      es := PlainTold(w, GetStore);
      SoundAs(deps, es, w, Send(w, GetStore), ResolveAddonSlug(w, a));
    }
  }

  /** Registering a repository is one request, and reloading the store the next. */
  lemma AddForms(w: World, url: string) returns (es: seq<Event>)
    ensures var r := AddStoreRepository(w, url);
      && Told(es, w, r) && |es| <= 2
      && (forall i :: 0 <= i < |es| ==>
            es[i].Request? && es[i].op == [AddRepository(url), Reload][i] && (i == 0 ==> es[i].before == w.device))
      && (r.reply.Good? ==> |es| == 2)
  {
    hide Select, Send, Told;
    es := PlainTold(w, AddRepository(url));
    var added := Send(w, AddRepository(url));
    if added.reply.Good? {
      var more := SendTold(added.w, Reload);
      ReloadTold(more, added.w, AddStoreRepository(w, url));
      ToldThen(es, w, added, more, AddStoreRepository(w, url));
      es := es + more;
    } else {
      ToldAs(es, w, added, AddStoreRepository(w, url));
    }
  }

  lemma ToldAs<T, U>(es: seq<Event>, w: World, r: Outcome<T>, q: Outcome<U>)
    requires Told(es, w, r) && q.w == r.w && (q.reply.Err? <==> r.reply.Err?)
    ensures Told(es, w, q)
  {
  }

  lemma ReloadTold<T>(es: seq<Event>, w: World, r: Outcome<T>)
    requires Called(es, w, r.w) && !r.reply.Err? && forall e :: e in es ==> e.Request? && e.op == Reload
    ensures Told(es, w, r)
  {
  }

  lemma AddSound(deps: seq<Addon>, w: World, url: string) returns (es: seq<Event>)
    requires Lacks(deps, url, w.device.store)
    ensures Sound(deps, es, w, AddStoreRepository(w, url))
  {
    hide Select, Told, Lacks;
    es := AddForms(w, url);
  }

  /** What an add-on's info tells, and when it misleads. */
  lemma InfoSound(deps: seq<Addon>, w: World, slug: string) returns (es: seq<Event>)
    requires slug == SELF || Manages(deps, slug)
    ensures var r, a := GetAddonInfo(w, slug), w.device.State(slug);
      && Sound(deps, es, w, r) && (slug == SELF && AnyMisread(es) ==> SelfMisread(es))
      && (r.reply.Good? ==>
            && (r.reply.value.updateAvailable ==> a.outdated)
            && (r.reply.value.installed ==> a.installed)
            && (!r.reply.value.installed ==> !a.installed || AnyMisread(es))
            && (!r.reply.value.autoUpdate ==> !a.installed || !a.autoUpdate || AnyMisread(es)))
  {
    hide Select, Send, Manages, Device.State;
    es := SendTold(w, GetInfo(slug));
    if es != [] {
      assert es[0] in es;
    }
  }

  lemma EnableSound(deps: seq<Addon>, w: World, slug: string, on: bool) returns (es: seq<Event>)
    requires (slug == SELF || Manages(deps, slug))
    ensures var a := w.device.State(slug);
      && Told(es, w, EnableAutoUpdate(w, slug, on))
      && (forall e :: e in es ==> e.Request? && e.op == SetAutoUpdate(slug, true) && e.before == w.device)
      && (on ==> es == [])
  {
    hide Select, Send, Device.State;
    es := [];
    if !on {
      es := SendTold(w, SetAutoUpdate(slug, true));
    }
  }

  lemma MutateTold(w: World, form: Op, legacy: Op) returns (es: seq<Event>)
    requires (form.Install? || form.Update?) && !form.legacy
    requires legacy == if form.Install? then Install(form.slug, true) else Update(form.slug, true)
    ensures Told(es, w, Mutate(w, form, legacy))
    ensures forall e :: e in es ==> e.Request? && e.op in {form, legacy} && e.before == w.device
  {
    hide Select, Send;
    es := SendTold(w, form);
    var first := Send(w, form);
    if first.reply == Err(true) {
      RefusedChangesNothing(w, form);
      var more := SendTold(first.w, legacy);
      assert Select(Call, w.trace) + es + more == Select(Call, w.trace) + (es + more);
      assert (es + more)[..|es|] == es;
      es := es + more;
    }
  }

  lemma RefusedChangesNothing(w: World, op: Op)
    ensures Send(w, op).reply == Err(true) ==> Send(w, op).w.device == w.device
  {
  }

  lemma InstallSound(deps: seq<Addon>, w: World, slug: string) returns (es: seq<Event>)
    requires Manages(deps, slug)
    ensures Told(es, w, InstallAddon(w, slug))
    ensures !w.device.State(slug).installed ==> AllNeeded(deps, es)
    ensures forall e :: e in es ==> Needed(deps, true, e) && !e.Misleads()
  {
    hide Select, Mutate, Told, Manages, Device.State;
    es := MutateTold(w, Install(slug, false), Install(slug, true));
  }

  lemma UpdateSound(deps: seq<Addon>, w: World, slug: string) returns (es: seq<Event>)
    requires (slug == SELF || Manages(deps, slug)) && w.device.State(slug).outdated
    ensures Sound(deps, es, w, UpdateAddonLatest(w, slug))
  {
    hide Select, Mutate, Told, Manages, Device.State;
    es := MutateTold(w, Update(slug, false), Update(slug, true));
  }

  /** What is needed only after a misread comes after one. */
  lemma NeededAfter(deps: seq<Addon>, es: seq<Event>, more: seq<Event>)
    requires AllNeeded(deps, es) && forall e :: e in more ==> Needed(deps, AnyMisread(es) || AnyMisread(more), e)
    ensures AllNeeded(deps, es + more)
  {
    hide Lacks, Manages, Device.State, UpdateAvailable;
    assert forall e :: e in es || e in more ==> e in es + more;
  }

  /** The last info of an add-on, once the work has come to it. */
  ghost predicate KnownBy(es: seq<Event>, d: Device, slug: string, info: AddonInfo) {
    && (info.updateAvailable ==> d.State(slug).outdated)
    && (!info.autoUpdate ==> !d.State(slug).installed || !d.State(slug).autoUpdate || AnyMisread(es))
  }

  lemma EnsureSound(deps: seq<Addon>, w: World, slug: string) returns (es: seq<Event>)
    requires Manages(deps, slug)
    ensures var r := EnsureInstalled(w, slug);
      Sound(deps, es, w, r) && (r.reply.Good? ==> KnownBy(es, r.w.device, slug, r.reply.value))
  {
    hide Select, GetAddonInfo, InstallAddon, Told, Manages, Device.State, Needed;
    es := InfoSound(deps, w, slug);
    var asked := GetAddonInfo(w, slug);
    if asked.reply.Good? && !asked.reply.value.installed {
      var installed := InstallAddon(asked.w, slug);
      var more := InstallSound(deps, asked.w, slug);
      NoMisread(deps, es, more);
      ToldThen(es, w, asked, more, installed);
      es := es + more;
      if installed.reply.Good? {
        var last := InfoSound(deps, installed.w, slug);
        SoundThen(deps, es, w, installed, last, EnsureInstalled(w, slug));
        MisreadLater(es, last);
        es := es + last;
      } else {
        SoundAs(deps, es, w, installed, EnsureInstalled(w, slug));
      }
    } else {
      SoundAs(deps, es, w, asked, EnsureInstalled(w, slug));
    }
  }

  lemma MisreadLater(es: seq<Event>, more: seq<Event>)
    ensures AnyMisread(es + more) <==> AnyMisread(es) || AnyMisread(more)
  {
    assert forall e :: e in es || e in more ==> e in es + more;
  }

  lemma NoMisread(deps: seq<Addon>, es: seq<Event>, more: seq<Event>)
    requires AllNeeded(deps, es) && (AllNeeded(deps, more) || AnyMisread(es))
    requires forall e :: e in more ==> Needed(deps, true, e)
    ensures AllNeeded(deps, es + more)
  {
    hide Needed;
    if AnyMisread(es) {
      NeededAfter(deps, es, more);
    } else {
      NeededThen(deps, es, more);
    }
  }

  lemma EnableNeeded(deps: seq<Addon>, w: World, slug: string, info: AddonInfo, es: seq<Event>)
    returns (more: seq<Event>)
    requires (slug == SELF || Manages(deps, slug)) && KnownBy(es, w.device, slug, info) && AllNeeded(deps, es)
    ensures Told(more, w, EnableAutoUpdate(w, slug, info.autoUpdate)) && AllNeeded(deps, es + more)
  {
    hide Select, Told, Manages, Device.State, AnyMisread, EnableAutoUpdate;
    more := EnableSound(deps, w, slug, info.autoUpdate);
    forall e | e in more ensures Needed(deps, AnyMisread(es) || AnyMisread(more), e) {
      assert !info.autoUpdate;
    }
    NeededAfter(deps, es, more);
  }

  lemma ResolvedSound(deps: seq<Addon>, w: World, slug: string) returns (es: seq<Event>)
    requires Manages(deps, slug)
    ensures Sound(deps, es, w, UpdateResolved(w, slug))
  {
    hide Select, EnsureInstalled, EnableAutoUpdate, UpdateAddonLatest, Told, AllNeeded, Manages, Device.State;
    es := EnsureSound(deps, w, slug);
    var ensured := EnsureInstalled(w, slug);
    if ensured.reply.Good? {
      var info := ensured.reply.value;
      var enabled := EnableAutoUpdate(ensured.w, slug, info.autoUpdate);
      var more := EnableNeeded(deps, ensured.w, slug, info, es);
      ToldThen(es, w, ensured, more, enabled);
      es := es + more;
      if enabled.reply.Good? && info.updateAvailable {
        var last := UpdateSound(deps, enabled.w, slug);
        SoundThen(deps, es, w, enabled, last, UpdateResolved(w, slug));
        es := es + last;
      } else {
        SoundAs(deps, es, w, enabled, UpdateResolved(w, slug));
      }
    } else {
      SoundAs(deps, es, w, ensured, UpdateResolved(w, slug));
    }
  }

  lemma RegisterSound(deps: seq<Addon>, w: World, dep: Addon) returns (es: seq<Event>)
    requires dep in deps && dep.matchName != AGENT_MATCH
    ensures Sound(deps, es, w, ResolveOrRegister(w, dep))
  {
    hide Select, ResolveAddonSlug, AddStoreRepository, Told, AllNeeded, Resolved;
    es := ResolveSound(deps, w, dep);
    var found := ResolveAddonSlug(w, dep);
    if found.reply == Good(None) && !dep.core && dep.repository != "" {
      assert Lacks(deps, dep.repository, w.device.store);
      var added := AddStoreRepository(found.w, dep.repository);
      var more := AddSound(deps, found.w, dep.repository);
      SoundThen(deps, es, w, found, more, added);
      es := es + more;
      if added.reply.Good? {
        var last := ResolveSound(deps, added.w, dep);
        SoundThen(deps, es, w, added, last, ResolveOrRegister(w, dep));
        es := es + last;
      } else {
        SoundAs(deps, es, w, added, ResolveOrRegister(w, dep));
      }
    } else {
      SoundAs(deps, es, w, found, ResolveOrRegister(w, dep));
    }
  }

  lemma AddonSound(deps: seq<Addon>, w: World, dep: Addon) returns (es: seq<Event>)
    requires dep in deps && dep.matchName != AGENT_MATCH
    ensures Sound(deps, es, w, UpdateAddon(w, dep))
  {
    hide Select, ResolveOrRegister, UpdateResolved, Told, AllNeeded, Addon.Resolves;
    es := RegisterSound(deps, w, dep);
    var found := ResolveOrRegister(w, dep);
    if found.reply.Good? && found.reply.value.Some? {
      assert Manages(deps, found.reply.value.value);
      var more := ResolvedSound(deps, found.w, found.reply.value.value);
      SoundThen(deps, es, w, found, more, UpdateAddon(w, dep));
      es := es + more;
    } else {
      SoundAs(deps, es, w, found, UpdateAddon(w, dep));
    }
  }

  lemma {:induction false} AddonsSound(all: seq<Addon>, w: World, deps: seq<Addon>) returns (es: seq<Event>)
    requires forall dep :: dep in deps ==> dep in all
    ensures Sound(all, es, w, UpdateAddons(w, deps))
    decreases |deps|
  {
    hide Select, UpdateAddon, Told, AllNeeded;
    if deps == [] {
      es := [];
      NothingSound(all, w, UpdateAddons(w, deps));
    } else if deps[0].matchName == AGENT_MATCH {
      es := AddonsSound(all, w, deps[1..]);
    } else {
      es := AddonSound(all, w, deps[0]);
      var first := UpdateAddon(w, deps[0]);
      if first.reply.Good? {
        var more := AddonsSound(all, first.w, deps[1..]);
        SoundThen(all, es, w, first, more, UpdateAddons(w, deps));
        es := es + more;
      } else {
        SoundAs(all, es, w, first, UpdateAddons(w, deps));
      }
    }
  }

  lemma TwoSound(deps: seq<Addon>, w: World, read: Op, write: Op, r: Outcome<bool>) returns (es: seq<Event>)
    requires (read == GetOS && write == UpdateOS && r == UpdateOSLatest(w))
             || (read == GetCore && write == UpdateCore && r == UpdateCoreLatest(w))
    ensures Sound(deps, es, w, r)
  {
    hide Select, Told, UpdateAvailable, Send;
    es := PlainTold(w, read);
    var first := Send(w, read);
    if first.reply.Good? {
      ReadsKeepDevice(w, read);
      if UpdateAvailable(if read == GetOS then first.w.device.os else first.w.device.core) {
        var second := Send(first.w, write);
        var more := PlainTold(first.w, write);
        SoundThen(deps, es, w, first, more, second);
        SoundAs(deps, es + more, w, second, r);
        es := es + more;
      } else {
        SoundAs(deps, es, w, first, r);
      }
    } else {
      SoundAs(deps, es, w, first, r);
    }
  }

  lemma ReadsKeepDevice(w: World, op: Op)
    requires op == GetOS || op == GetCore
    ensures Send(w, op).w.device == w.device
  {
  }

  lemma SelfSound(deps: seq<Addon>, w: World) returns (es: seq<Event>)
    ensures Sound(deps, es, w, UpdateSelf(w))
    ensures UpdateSelf(w).reply == Good(false) && SelfOutdated(w.device) ==> SelfMisread(es)
  {
    hide Select, GetAddonInfo, EnableAutoUpdate, UpdateAddonLatest, Told, AllNeeded, Manages;
    es := InfoSound(deps, w, SELF);
    var asked, r := GetAddonInfo(w, SELF), UpdateSelf(w);
    if asked.reply.Good? && asked.reply.value.installed {
      var info := asked.reply.value;
      var enabled := EnableAutoUpdate(asked.w, SELF, info.autoUpdate);
      var more := EnableNeeded(deps, asked.w, SELF, info, es);
      ToldThen(es, w, asked, more, enabled);
      SelfMisreadLater(es, more);
      es := es + more;
      if enabled.reply.Good? && info.updateAvailable {
        var last := UpdateSound(deps, enabled.w, SELF);
        SoundThen(deps, es, w, enabled, last, UpdateAddonLatest(enabled.w, SELF));
        es := es + last;
        SoundAs(deps, es, w, UpdateAddonLatest(enabled.w, SELF), r);
      } else {
        SoundAs(deps, es, w, enabled, r);
      }
    } else {
      SoundAs(deps, es, w, asked, r);
    }
  }

  lemma SystemSound(deps: seq<Addon>, w: World) returns (es: seq<Event>)
    ensures Sound(deps, es, w, UpdateSystem(w))
    ensures var r := UpdateSystem(w);
      r.reply == Good(false) ==>
        && !UpdateAvailable(r.w.device.os) && !UpdateAvailable(r.w.device.core)
        && (SelfOutdated(r.w.device) ==> SelfMisread(es))
  {
    hide Select, UpdateOSLatest, UpdateCoreLatest, UpdateSelf, Told, AllNeeded, UpdateAvailable, Device.State;
    var os := UpdateOSLatest(w);
    es := TwoSound(deps, w, GetOS, UpdateOS, os);
    if os.reply == Good(false) {
      var core := UpdateCoreLatest(os.w);
      var more := TwoSound(deps, os.w, GetCore, UpdateCore, core);
      SoundThen(deps, es, w, os, more, core);
      es := es + more;
      if core.reply == Good(false) {
        var ts := SelfPhase(core.w);
        var last := SelfSound(deps, core.w);
        SoundThen(deps, es, w, core, last, UpdateSelf(core.w));
        SelfMisreadLater(es, last);
        es := es + last;
      }
    }
  }

  lemma SelfMisreadLater(es: seq<Event>, more: seq<Event>)
    ensures SelfMisread(es) || SelfMisread(more) ==> SelfMisread(es + more)
  {
    assert forall e :: e in es || e in more ==> e in es + more;
  }

  lemma PhasesSound(w: World, deps: seq<Addon>) returns (es: seq<Event>)
    ensures var r := Phases(w, deps);
      && Sound(deps, es, w, r)
      && (r.reply == Good(false) ==>
            && !UpdateAvailable(r.w.device.os) && !UpdateAvailable(r.w.device.core)
            && (SelfOutdated(r.w.device) ==> SelfMisread(es)))
  {
    hide Select, UpdateAddons, UpdateSystem, Told, AllNeeded, UpdateAvailable, Device.State;
    es := AddonsSound(deps, w, deps);
    var addons := UpdateAddons(w, deps);
    if addons.reply.Good? {
      var more := SystemSound(deps, addons.w);
      SoundThen(deps, es, w, addons, more, Phases(w, deps));
      SelfMisreadLater(es, more);
      es := es + more;
    } else {
      SoundAs(deps, es, w, addons, Phases(w, deps));
    }
  }

  // ---- what a pass reports ------------------------------------------------------------------

  /** The one terminal report of these marks, as the last of them; or none. */
  ghost predicate Reports(ms: seq<Event>, id: string, status: Option<Status>) {
    if status.None? then forall i :: 0 <= i < |ms| ==> !Terminal(ms[i])
    else
      && ms != [] && ms[|ms| - 1] == Report(status.value, id)
      && forall i :: 0 <= i < |ms| - 1 ==> !Terminal(ms[i])
  }

  ghost predicate AnyFatal(es: seq<Event>) {
    exists e :: e in es && Fatal(e)
  }

  /** The requests of a pass, told apart by whether it got to its end. */
  lemma PassCalls(w: World, manifest: Option<Manifest>, id: string) returns (es: seq<Event>)
    ensures var r := UpdateAll(w, manifest, id); var failed := manifest.None? || AnyFatal(es);
      && Called(es, w, r.w)
      && (if manifest.None? then es == [] else AllNeeded(manifest.value.addons, es))
      && (r.reply.Good? ==> (failed <==> r.reply == Good(Failure)))
      && (r.reply == Good(Converged) ==>
            && !UpdateAvailable(r.w.device.os) && !UpdateAvailable(r.w.device.core)
            && (SelfOutdated(r.w.device) ==> SelfMisread(es)))
  {
    hide Select, Begin, Phases, Persist, Publish, AllNeeded, UpdateAvailable, Device.State, AllDone, Sincere;
    hide SelfMisread;
    es := [];
    var b := Begin(w, id);
    var ms := BeginMarks(w, id);
    NothingNeeded(manifest);
    if b.reply.Good? && manifest.Some? {
      es := PhasesSound(b.w, manifest.value.addons);
      var p := Phases(b.w, manifest.value.addons);
      ToldFatal(es, b.w, p);
      if p.reply.Err? || p.reply == Good(false) {
        var end := FinishMarks(p.w, if p.reply.Err? then Failed else Ok, id);
      }
    } else if b.reply.Good? {
      var end := FinishMarks(b.w, Failed, id);
    }
  }

  lemma NothingNeeded(manifest: Option<Manifest>)
    ensures manifest.Some? ==> AllNeeded(manifest.value.addons, [])
    ensures !AnyFatal([])
  {
  }

  lemma ToldFatal<T>(es: seq<Event>, w: World, r: Outcome<T>)
    requires Told(es, w, r)
    ensures Called(es, w, r.w) && (AnyFatal(es) <==> r.reply.Err?)
  {
    hide Fatal, Select;
    assert r.reply.Err? ==> es[|es| - 1] in es;
  }

  /** A pass that gets to its end reports `failed` exactly if its manifest could not be
      read or one of its requests was answered fatally; otherwise it reports `ok`, or, if
      it set off a restart, nothing yet. */
  lemma ReportsTruthfully(w: World, manifest: Option<Manifest>, id: string)
    requires manifest.Some? ==> PlainSlugs(manifest.value.addons)
    ensures var r := UpdateAll(w, manifest, id);
      var calls, triggers, ms := News(Call, w, r.w), News(Trigger, w, r.w), News(Mark, w, r.w);
      r.reply.Good? ==>
        Reports(ms, id, if manifest.None? || AnyFatal(calls) then Some(Failed)
                        else if triggers == [] then Some(Ok) else None)
  {
    hide Select, UpdateAll, AllNeeded, UpdateAvailable, Device.State, PlainSlugs, AnyFatal, InOrder, OneUpdate, Reports;
    var r := UpdateAll(w, manifest, id);
    var es := PassCalls(w, manifest, id);
    assert News(Call, w, r.w) == es;
    MarkerSafety(w, manifest, id);
    if r.reply.Good? {
      MarksReport(id, News(Mark, w, r.w), w.file, r);
    }
    if manifest.Some? {
      PhaseOrder(w, manifest.value, id);
    }
  }

  lemma MarksReport(id: string, ms: seq<Event>, file: Marker, r: Outcome<PassEnd>)
    requires PassMarks(id, ms, file, r) && r.reply.Good?
    ensures Reports(ms, id, match r.reply.value case Failure => Some(Failed) case Converged => Some(Ok) case _ => None)
  {
    var n := if id != "" then 1 else 0;
    match r.reply.value {
      case Triggered => assert r.reply == Good(Triggered) && |ms| == n + 1;
      case Converged => assert r.reply == Good(Converged) && |ms| == n + 3 && !Terminal(ms[n + 1]);
      case Failure => assert r.reply == Good(Failure) && |ms| == n + 3 && !Terminal(ms[n + 1]);
    }
    assert !Terminal(ms[n]) && (n == 1 ==> !Terminal(ms[0]));
  }

  /** Whatever a pass asks of Supervisor, it has reason to. */
  lemma NothingUnneeded(w: World, m: Manifest, id: string, e: Event)
    requires e in News(Call, w, UpdateAll(w, Some(m), id).w)
    ensures Needed(m.addons, AnyMisread(News(Call, w, UpdateAll(w, Some(m), id).w)), e)
  {
    hide Select, UpdateAll, Needed, UpdateAvailable, Device.State, AnyFatal;
    var es := PassCalls(w, Some(m), id);
    assert News(Call, w, UpdateAll(w, Some(m), id).w) == es;
  }

  // ---- what `ok` means ------------------------------------------------------------------------

  /** A version as it may be written: blanks around it, and a `v` before it. */
  ghost predicate Spells(s: string, version: string) {
    exists a, b :: Blank(a) && Blank(b) && (s == a + version + b || s == a + ("v" + version) + b)
  }

  /** A version without such decoration. */
  predicate Plain(version: string) {
    version != "" && Trimmed(version) && version[0] != 'v'
  }

  /** An update is available exactly if the latest version is not the one that runs,
      however the two are written; and none is if the latest version is not known. */
  lemma AvailableExactly(v: VersionInfo, runs: string, latest: string)
    requires Plain(runs) && Plain(latest) && Spells(v.version, runs) && Spells(v.latest, latest)
    ensures UpdateAvailable(v) <==> runs != latest
    ensures !UpdateAvailable(v.(latest := ""))
  {
    SpelledOut(v.version, runs);
    SpelledOut(v.latest, latest);
    assert v.latest != "";
  }

  lemma SpelledOut(s: string, version: string)
    requires Plain(version) && Spells(s, version)
    ensures NormalizeVersion(s) == version && s != ""
  {
    hide TrimSpace, IsSpace;
    var a, b :| Blank(a) && Blank(b) && (s == a + version + b || s == a + ("v" + version) + b);
    assert Trimmed("v" + version) by { VIsNoSpace(version); }
    if s == a + version + b {
      TrimmedOf(a, version, b);
    } else {
      TrimmedOf(a, "v" + version, b);
    }
  }

  lemma VIsNoSpace(version: string)
    requires Plain(version)
    ensures Trimmed("v" + version)
  {
    hide TrimSpace;
    var s := "v" + version;
    assert s[|s| - 1] == version[|version| - 1];
  }

  /** A store that has registered repositories, and with each all that it offers. */
  ghost predicate Enlarged(a: Store, b: Store) {
    && Grown(a, b)
    && forall url, slug :: url in b.repos && url !in a.repos && url in a.catalog && slug in a.catalog[url] ==>
         slug in b.slugs
  }

  lemma TurnEnlarges(first: Store, store: Store, dep: Addon)
    requires Enlarged(first, store)
    ensures Enlarged(first, AtTurn(store, dep))
  {
    hide Resolved;
  }

  /** An add-on that resolves, or does once its own repository is registered, resolves at
      its turn. */
  lemma ResolvesAtTurn(first: Store, store: Store, dep: Addon)
    requires Enlarged(first, store) && Obtainable(first, dep)
    ensures Resolved(AtTurn(store, dep), dep).Some?
  {
    hide Addon.Resolves;
    if Resolved(first, dep).Some? {
      ResolvedStays(first, store, dep);
    } else if Resolved(store, dep).None? {
      var url := dep.repository;
      var slug := Resolved(first.Register(url), dep).value;
      assert slug in first.Register(url).slugs && slug !in first.slugs;
      assert url in first.catalog && slug in first.catalog[url];
      assert slug in AtTurn(store, dep).slugs;
    }
  }

  predicate Obtainable(store: Store, dep: Addon) {
    || Resolved(store, dep).Some?
    || (!dep.core && dep.repository != "" && Resolved(store.Register(dep.repository), dep).Some?)
  }

  /** The add-on is installed and fresh if it can be had; and if it cannot, its repository
      is there, should it have one. */
  ghost predicate Served(before: Store, d: Device, dep: Addon) {
    var slug := Resolved(d.store, dep);
    && (Obtainable(before, dep) ==> slug.Some?)
    && (slug.None? ==> dep.core || dep.repository == "" || dep.repository in d.store.repos)
    && (Obtainable(before, dep) ==> Fresh(d, slug.value))
  }

  /** What is managed, in terms of the store before: every add-on that can be had. */
  lemma {:induction false} ManagesObtainable(first: Store, store: Store, deps: seq<Addon>, dep: Addon)
    requires Enlarged(first, store) && dep in deps && dep.matchName != AGENT_MATCH && Obtainable(first, dep)
    ensures var slug := Resolved(StoreAfter(store, deps), dep);
      slug.Some? && slug.value in Managed(store, deps)
    decreases |deps|
  {
    hide AtTurn, Resolved, Obtainable, Enlarged, Grown;
    var head, rest := deps[0], deps[1..];
    assert deps == [head] + rest;
    var at := if head.matchName == AGENT_MATCH then store else AtTurn(store, head);
    if head == dep {
      ResolvesAtTurn(first, store, dep);
      AfterGrows(at, rest);
      ResolvedStays(at, StoreAfter(at, rest), dep);
    } else {
      TurnEnlarges(first, store, head);
      ManagesObtainable(first, at, rest, dep);
    }
  }

  /** A store is complete exactly if every add-on that does not resolve has its
      repository registered, should it have one. */
  lemma SettledMeans(store: Store, deps: seq<Addon>)
    ensures Settled(store, deps) <==>
            forall dep :: dep in deps && dep.matchName != "smart_home_agent" && Resolved(store, dep).None? ==>
              dep.core || dep.repository == "" || dep.repository in store.repos
  {
    hide Resolved;
    forall dep: Addon
      ensures AtTurn(store, dep) == store <==>
              (Resolved(store, dep).None? ==> dep.core || dep.repository == "" || dep.repository in store.repos)
    {
      if Resolved(store, dep).None? && !dep.core && dep.repository != "" && dep.repository !in store.repos {
        assert |store.Register(dep.repository).repos| == |store.repos| + 1;
      }
    }
  }

  /** A pass that got through its phases without being deceived leaves what it manages
      installed and fresh. */
  lemma PassFresh(w: World, m: Manifest, id: string)
    requires Sincere(w)
    ensures var r := UpdateAll(w, Some(m), id);
      r.reply in {Good(Converged), Good(Triggered)} ==>
        && r.w.device.store == StoreAfter(w.device.store, m.addons)
        && forall slug :: slug in Managed(w.device.store, m.addons) ==> Fresh(r.w.device, slug)
  {
    hide Select, Begin, Persist, Publish, UpdateAddons, UpdateSystem, Managed, StoreAfter, UpdateAvailable;
    hide Device.State, AllDone, Settled, Sincere, Rank;
    var b := Begin(w, id);
    var ms := BeginMarks(w, id);
    if b.reply.Good? {
      var a := UpdateAddons(b.w, m.addons);
      if a.reply.Good? {
        SystemKeeps(a.w);
        var p := UpdateSystem(a.w);
        FreshKept(a.w.device, p.w.device);
        if p.reply == Good(false) {
          var end := FinishMarks(p.w, Ok, id);
        }
      }
    }
  }

  lemma FreshKept(d: Device, d': Device)
    requires Keeps(d, d')
    ensures forall slug :: Fresh(d, slug) ==> Fresh(d', slug)
  {
    hide Device.State, UpdateAvailable;
  }

  /** If a pass reports `ok`, no OS and no Core update is available, the agent is not
      outdated, unless its own info was refused, and every add-on of the manifest that can
      be had is installed and fresh, unless Supervisor said so without doing it. */
  lemma OkMeansCurrent(w: World, m: Manifest, id: string)
    ensures var r := UpdateAll(w, Some(m), id);
      Report(Ok, id) in News(Mark, w, r.w) ==>
        && !UpdateAvailable(r.w.device.os) && !UpdateAvailable(r.w.device.core)
        && (SelfOutdated(r.w.device) ==> SelfMisread(News(Call, w, r.w)))
        && (Sincere(w) ==> forall dep :: dep in m.addons && dep.matchName != "smart_home_agent" ==>
              Served(w.device.store, r.w.device, dep))
  {
    hide Select, UpdateAll, AllNeeded, UpdateAvailable, Device.State, AnyFatal, SelfMisread, StoreAfter, Managed;
    hide Served, Sincere;
    var r := UpdateAll(w, Some(m), id);
    var es := PassCalls(w, Some(m), id);
    assert News(Call, w, r.w) == es;
    MarkerSafety(w, Some(m), id);
    if Report(Ok, id) in News(Mark, w, r.w) && Sincere(w) {
      PassFresh(w, m, id);
      forall dep | dep in m.addons && dep.matchName != "smart_home_agent"
        ensures Served(w.device.store, r.w.device, dep)
      {
        ServedAfter(w.device.store, m.addons, r.w.device, dep);
      }
    }
  }

  lemma ServedAfter(store: Store, deps: seq<Addon>, d: Device, dep: Addon)
    requires d.store == StoreAfter(store, deps) && forall slug :: slug in Managed(store, deps) ==> Fresh(d, slug)
    requires dep in deps && dep.matchName != AGENT_MATCH
    ensures Served(store, d, dep)
  {
    hide StoreAfter, Managed, Resolved, Obtainable, Device.State;
    assert Enlarged(store, store);
    if Obtainable(store, dep) {
      ManagesObtainable(store, store, deps, dep);
    }
    SettledAfter(store, deps, d.store);
    SettledMeans(d.store, deps);
  }
}
