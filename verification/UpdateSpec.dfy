/** What one pass of the fleet update engine does (internal/agent/update.go):
    the managed add-ons, then OS, then Core, then the agent itself. */
module UpdateSpec {
  import opened Common
  import opened Fleet
  import opened World
  import opened SupervisorSpec

  datatype PassEnd = Converged | Failure | Triggered

  function NormalizeVersion(v: string): string {
    var t := TrimSpace(v);
    if t != "" && t[0] == 'v' then t[1..] else t
  }

  predicate VersionsEqual(a: string, b: string) {
    NormalizeVersion(a) == NormalizeVersion(b)
  }

  predicate UpdateAvailable(v: VersionInfo) {
    v.latest != "" && !VersionsEqual(v.version, v.latest)
  }

  predicate SelfOutdated(d: Device) {
    d.State(SELF).installed && d.State(SELF).outdated
  }

  predicate SelfCurrent(d: Device) {
    d.State(SELF).installed ==> Current(d, SELF)
  }

  /** What the add-on's turn leaves of the store: an add-on that does not resolve
      has its own repository registered first. */
  function AtTurn(store: Store, dep: Addon): Store {
    if Resolved(store, dep).None? && !dep.core && dep.repository != "" then store.Register(dep.repository) else store
  }

  function StoreAfter(store: Store, deps: seq<Addon>): Store
    decreases |deps|
  {
    if deps == [] then store
    else if deps[0].matchName == AGENT_MATCH then StoreAfter(store, deps[1..])
    else StoreAfter(AtTurn(store, deps[0]), deps[1..])
  }

  /** The slugs a pass manages: those that resolve when their turn comes. */
  function Managed(store: Store, deps: seq<Addon>): set<string>
    decreases |deps|
  {
    if deps == [] then {}
    else if deps[0].matchName == AGENT_MATCH then Managed(store, deps[1..])
    else
      var at := AtTurn(store, deps[0]);
      (match Resolved(at, deps[0]) case Some(s) => {s} case None => {}) + Managed(at, deps[1..])
  }

  /** Every repository that the add-ons would have registered is registered. */
  ghost predicate Settled(store: Store, deps: seq<Addon>) {
    forall dep :: dep in deps && dep.matchName != AGENT_MATCH ==> AtTurn(store, dep) == store
  }

  /** No managed add-on goes by the alias that the self-update uses. */
  predicate PlainSlugs(deps: seq<Addon>) {
    forall dep :: dep in deps && dep.matchName != AGENT_MATCH ==> !dep.Resolves(SELF)
  }

  /** Best-effort: a failure here does not fail the pass. */
  function EnableAutoUpdate(w: World, slug: string, on: bool): (r: Outcome<()>)
    ensures Follows(w, r.w) && Without(Trigger, w, r.w)
    ensures Gains(w.device, r.w.device) && r.w.device.store == w.device.store
    ensures !r.reply.Err?
    ensures r.reply.Good? && !on && AllDone(w) && w.device.State(slug).installed ==> r.w.device.State(slug).autoUpdate
    ensures r.w.device.State(slug).installed == w.device.State(slug).installed
    ensures r.w.device.State(slug).outdated == w.device.State(slug).outdated
  {
    hide Select, Send;
    if on then Outcome(w, Good(()))
    else
      var r := Send(w, SetAutoUpdate(slug, true));
      Outcome(r.w, if r.reply.Crash? then Crash else Good(()))
  }

  /** The add-on's install state, after installing it if it was missing. */
  function EnsureInstalled(w: World, slug: string): (r: Outcome<AddonInfo>)
    ensures Follows(w, r.w) && Without(Trigger, w, r.w)
    ensures Gains(w.device, r.w.device) && r.w.device.store == w.device.store
    ensures r.reply.Good? && Sincere(w) ==>
              Fresh(r.w.device, slug) || (r.w.device.State(slug).installed && r.reply.value.updateAvailable)
    ensures AllDone(w) ==> !r.reply.Err?
    ensures AllDone(w) && r.reply.Good? ==>
              r.reply.value == InfoOf(r.w.device.State(slug)) && r.w.device.State(slug).installed
  {
    hide Select, GetAddonInfo, InstallAddon;
    var (w, info) :- GetAddonInfo(w, slug);
    if info.installed then Outcome(w, Good(info)) else
    var (w, _) :- InstallAddon(w, slug);
    GetAddonInfo(w, slug)
  }

  function UpdateResolved(w: World, slug: string): (r: Outcome<()>)
    ensures Follows(w, r.w)
    ensures slug != SELF ==> Without(Trigger, w, r.w)
    ensures Gains(w.device, r.w.device) && r.w.device.store == w.device.store
    ensures r.reply.Good? && Sincere(w) ==> Fresh(r.w.device, slug)
    ensures AllDone(w) ==> !r.reply.Err? && (r.reply.Good? ==> Current(r.w.device, slug))
  {
    hide Select, EnsureInstalled, EnableAutoUpdate, UpdateAddonLatest;
    var (w, info) :- EnsureInstalled(w, slug);
    var (w, _) :- EnableAutoUpdate(w, slug, info.autoUpdate);
    if info.updateAvailable then UpdateAddonLatest(w, slug) else Outcome(w, Good(()))
  }

  /** The add-on's slug, after registering its repository if it did not resolve. */
  function ResolveOrRegister(w: World, dep: Addon): (r: Outcome<Option<string>>)
    ensures Follows(w, r.w) && Without(Trigger, w, r.w)
    ensures Gains(w.device, r.w.device)
    ensures r.reply.Good? && Sincere(w) ==>
              r.w.device.store == AtTurn(w.device.store, dep) && r.reply.value == Resolved(r.w.device.store, dep)
    ensures r.reply.Good? && r.reply.value.Some? ==> dep.Resolves(r.reply.value.value)
    ensures AllDone(w) ==> !r.reply.Err?
    ensures r.w.device.store in {w.device.store, AtTurn(w.device.store, dep)}
  {
    hide Select, ResolveAddonSlug, AddStoreRepository, AllDone, Sincere, Addon.Resolves, Store.Register, Gains;
    var (w, found) :- ResolveAddonSlug(w, dep);
    if found.None? && !dep.core && dep.repository != "" then
      var (w, _) :- AddStoreRepository(w, dep.repository);
      ResolveAddonSlug(w, dep)
    else Outcome(w, Good(found))
  }

  function UpdateAddon(w: World, dep: Addon): (r: Outcome<()>)
    ensures Follows(w, r.w)
    ensures !dep.Resolves(SELF) ==> Without(Trigger, w, r.w)
    ensures Gains(w.device, r.w.device)
    ensures r.reply.Good? && Sincere(w) ==>
              && r.w.device.store == AtTurn(w.device.store, dep)
              && var s := Resolved(r.w.device.store, dep); s.Some? ==> Fresh(r.w.device, s.value)
    ensures AllDone(w) ==>
              && !r.reply.Err?
              && (r.reply.Good? ==> var s := Resolved(r.w.device.store, dep); s.Some? ==> Current(r.w.device, s.value))
    ensures r.w.device.store in {w.device.store, AtTurn(w.device.store, dep)}
  {
    hide Select, ResolveOrRegister, UpdateResolved, AtTurn, Resolved, Addon.Resolves;
    hide AllDone, Sincere, Gains, Device.State, Fresh, Current;
    GainsTransitive();
    var (w, found) :- ResolveOrRegister(w, dep);
    if found.None? then Outcome(w, Good(())) else UpdateResolved(w, found.value)
  }

  /** Every managed dependency in manifest order; the agent's own entry is skipped. */
  function UpdateAddons(w: World, deps: seq<Addon>): (r: Outcome<()>)
    ensures Follows(w, r.w) && Gains(w.device, r.w.device)
    ensures PlainSlugs(deps) ==> Without(Trigger, w, r.w)
    ensures r.reply.Good? && Sincere(w) ==>
              && r.w.device.store == StoreAfter(w.device.store, deps)
              && forall s :: s in Managed(w.device.store, deps) ==> Fresh(r.w.device, s)
    ensures AllDone(w) ==>
              && !r.reply.Err?
              && (r.reply.Good? ==> forall s :: s in Managed(w.device.store, deps) ==> Current(r.w.device, s))
    ensures Settled(w.device.store, deps) ==> r.w.device.store == w.device.store
    decreases |deps|
  {
    hide Select, UpdateAddon, AtTurn;
    if deps == [] then Outcome(w, Good(()))
    else if deps[0].matchName == AGENT_MATCH then UpdateAddons(w, deps[1..])
    else
      var (w, _) :- UpdateAddon(w, deps[0]);
      UpdateAddons(w, deps[1..])
  }

  /** The trigger requests es came between, and after them no other request. */
  ghost predicate EndsWith(es: seq<Event>, w: World, w': World) {
    && Select(Trigger, w'.trace) == Select(Trigger, w.trace) + es
    && |es| <= |Select(Call, w'.trace)|
    && Select(Call, w'.trace)[|Select(Call, w'.trace)| - |es|..] == es
  }

  /** Either nothing was triggered and the device is as it was, or the one
      request was the trigger and the device is as it was or updated. */
  ghost predicate OneTrigger(op: Op, needed: bool, w: World, r: Outcome<bool>) {
    && Follows(w, r.w)
    && (AllDone(w) ==> !r.reply.Err?)
    && (Without(Trigger, w, r.w) ==> r.w.device == w.device && r.reply != Good(true))
    && (!Without(Trigger, w, r.w) ==>
          && needed && r.reply != Good(false)
          && w.fates != [] && |w.fates| > 1 && EndsWith([Request(op, w.device, w.fates[1])], w, r.w)
          && r.w.device in {w.device, op.Apply(w.device)})
    && (r.reply == Good(false) ==> !needed)
    && (r.reply == Good(true) && Sincere(w) ==> r.w.device == op.Apply(w.device))
  }

  function UpdateOSLatest(w: World): (r: Outcome<bool>)
    ensures OneTrigger(UpdateOS, UpdateAvailable(w.device.os), w, r)
  {
    hide Select, AllDone, Sincere, UpdateAvailable;
    var (w, _) :- Send(w, GetOS);
    if !UpdateAvailable(w.device.os) then Outcome(w, Good(false)) else
    var (w, _) :- Send(w, UpdateOS);
    Outcome(w, Good(true))
  }

  function UpdateCoreLatest(w: World): (r: Outcome<bool>)
    ensures OneTrigger(UpdateCore, UpdateAvailable(w.device.core), w, r)
  {
    hide Select, AllDone, Sincere, UpdateAvailable;
    var (w, _) :- Send(w, GetCore);
    if !UpdateAvailable(w.device.core) then Outcome(w, Good(false)) else
    var (w, _) :- Send(w, UpdateCore);
    Outcome(w, Good(true))
  }

  function UpdateSelf(w: World): (r: Outcome<bool>) {
    var (w, info) :- GetAddonInfo(w, SELF);
    if !info.installed then Outcome(w, Good(false)) else
    var (w, _) :- EnableAutoUpdate(w, SELF, info.autoUpdate);
    if !info.updateAvailable then Outcome(w, Good(false)) else
    var (w, _) :- UpdateAddonLatest(w, SELF);
    Outcome(w, Good(true))
  }

  /** Everything a pass asks of Supervisor. True when it set off a restart. */
  function Phases(w: World, deps: seq<Addon>): (r: Outcome<bool>) {
    var (w, _) :- UpdateAddons(w, deps);
    UpdateSystem(w)
  }

  /** The reboot-prone phases: OS, then Core, then the agent itself. */
  function UpdateSystem(w: World): (r: Outcome<bool>) {
    var (w, triggered) :- UpdateOSLatest(w);
    if triggered then Outcome(w, Good(true)) else
    var (w, triggered) :- UpdateCoreLatest(w);
    if triggered then Outcome(w, Good(true)) else
    UpdateSelf(w)
  }

  /** No request came between: only the agent's own disk and reports. */
  ghost predicate Aside(w: World, w': World) {
    && Without(Call, w, w') && Without(Trigger, w, w') && Without(Mutation, w, w')
    && w'.device == w.device
    && (AllDone(w) ==> AllDone(w')) && (Sincere(w) ==> Sincere(w'))
  }

  /** The marks that came between. */
  ghost predicate Marked(ms: seq<Event>, w: World, w': World) {
    Select(Mark, w'.trace) == Select(Mark, w.trace) + ms
  }

  lemma SelectMark(t: seq<Event>, e: Event)
    requires !e.Request?
    ensures Select(Mark, t + [e]) == Select(Mark, t) + [e]
    ensures Select(Call, t + [e]) == Select(Call, t)
    ensures Select(Trigger, t + [e]) == Select(Trigger, t)
    ensures Select(Mutation, t + [e]) == Select(Mutation, t)
  {
    hide Select;
    SelectAppend(Mark, t, e);
    SelectAppend(Call, t, e);
    SelectAppend(Trigger, t, e);
    SelectAppend(Mutation, t, e);
  }

  /** A marker write ends with the marker on disk, or not at all. */
  ghost predicate Persisted(w: World, m: Marker, r: Outcome<()>) {
    && Aside(w, r.w)
    && !r.reply.Err?
    && (r.reply.Crash? ==> Marked([], w, r.w) && r.w.file == w.file)
    && (r.reply.Good? ==>
          || (Marked([Committed(m)], w, r.w) && r.w.file == m)
          || (Marked([WriteFailed], w, r.w) && r.w.file == w.file && !AllDone(w)))
  }

  lemma NotWritten(w: World, m: Marker)
    ensures Persisted(w, m, Outcome(w, Crash))
  {
    hide Select;
  }

  lemma WriteFails(w: World, m: Marker)
    requires w.fates != [] && w.fates[0] != Done
    ensures Persisted(w, m, Outcome(w.(fates := w.fates[1..], trace := w.trace + [WriteFailed]), Good(())))
  {
    hide Select;
    SelectMark(w.trace, WriteFailed);
  }

  lemma Written(w: World, m: Marker)
    requires w.fates != []
    ensures Persisted(
              w, m,
              Outcome(w.(file := m, tmp := None, fates := w.fates[1..], trace := w.trace + [Committed(m)]), Good(())))
  {
    hide Select;
    SelectMark(w.trace, Committed(m));
  }

  /** Writing the temporary file is not yet a mark. */
  lemma PersistedLater(w: World, m: Marker, r: Outcome<()>)
    requires w.fates != [] && Persisted(w.(tmp := Some(m), fates := w.fates[1..]), m, r)
    ensures Persisted(w, m, r)
  {
    hide Select;
  }

  /** Write the temporary file, then rename it over the marker: two effects, and
      an error at either leaves the marker as it was. */
  function Persist(w: World, m: Marker): (r: Outcome<()>)
    ensures Persisted(w, m, r)
  {
    hide Persisted, Rename;
    NotWritten(w, m);
    if w.fates == [] then Outcome(w, Crash)
    else if w.fates[0] != Done then
      WriteFails(w, m);
      Outcome(w.(fates := w.fates[1..], trace := w.trace + [WriteFailed]), Good(()))
    else
      var r := Rename(w.(tmp := Some(m), fates := w.fates[1..]));
      PersistedLater(w, m, r);
      r
  }

  function Rename(w: World): (r: Outcome<()>)
    requires w.tmp.Some?
    ensures Persisted(w, w.tmp.value, r)
  {
    hide Persisted;
    NotWritten(w, w.tmp.value);
    if w.fates == [] then Outcome(w, Crash)
    else if w.fates[0] != Done then
      WriteFails(w, w.tmp.value);
      Outcome(w.(fates := w.fates[1..], trace := w.trace + [WriteFailed]), Good(()))
    else
      var m := w.tmp.value;
      Written(w, m);
      Outcome(w.(file := m, tmp := None, fates := w.fates[1..], trace := w.trace + [Committed(m)]), Good(()))
  }

  /** A process that dies between the two leaves the marker whole, and the new one in the
      temporary file only. */
  lemma CutBetween(w: World, m: Marker)
    requires w.fates == [Done]
    ensures Persist(w, m) == Outcome(w.(tmp := Some(m), fates := []), Crash)
  {
    hide Select;
  }

  function Publish(w: World, status: Status, id: string): (r: Outcome<()>)
    ensures Aside(w, r.w) && r.w.file == w.file
    ensures !r.reply.Err?
    ensures if r.reply.Good? then Marked([Report(status, id)], w, r.w) else Marked([], w, r.w)
  {
    hide Select;
    SelectMark(w.trace, Report(status, id));
    if w.fates == [] then Outcome(w, Crash)
    else Outcome(w.(fates := w.fates[1..], trace := w.trace + [Report(status, id)]), Good(()))
  }

  /** Clear the marker, then report. */
  function Finish(w: World, status: Status, id: string): (r: Outcome<()>) {
    var (w, _) :- Persist(w, CLEAR);
    Publish(w, status, id)
  }

  /** Announce a commanded pass, then set the marker. */
  function Begin(w: World, id: string): (r: Outcome<()>) {
    var (w, _) :- if id != "" then Publish(w, Started, id) else Outcome(w, Good(()));
    Persist(w, Marker(true, id))
  }

  /** One pass. `manifest` is what fleet.Default returned. */
  function UpdateAll(w: World, manifest: Option<Manifest>, id: string): (r: Outcome<PassEnd>) {
    var (w, _) :- Begin(w, id);
    var r := if manifest.None? then Outcome(w, Err(false)) else Phases(w, manifest.value.addons);
    match r.reply
    case Crash => Outcome(r.w, Crash)
    case Err(_) => var (w, _) :- Finish(r.w, Failed, id); Outcome(w, Good(Failure))
    case Good(true) => Outcome(r.w, Good(Triggered))
    case Good(false) => var (w, _) :- Finish(r.w, Ok, id); Outcome(w, Good(Converged))
  }
}
