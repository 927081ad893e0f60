/** The gateway seen from its software: the Supervisor's device state, the update
    marker file, and the fate that the environment holds ready for every effect.

    Each effect (a Supervisor call, a disk write, a published report) uses up the
    next fate. When none is left the process dies there, so a finite list of fates
    is one way for a run to go, cut at any effect. */
module World {
  import opened Common

  datatype Value = Null | Bool(b: bool) | Num(n: int) | Str(s: string)
                 | List(items: seq<Value>) | Obj(fields: map<string, Value>)
  type Options = map<string, Value>

  datatype AddonState =
    AddonState(installed: bool, started: bool, autoUpdate: bool, outdated: bool, options: Options)
  {
    /** Installed, and nothing newer is known for it. */
    predicate Fresh() {
      installed && !outdated
    }

    /** Fresh, and kept fresh by Supervisor between checks. */
    predicate Current() {
      Fresh() && autoUpdate
    }

    predicate NoWorseThan(a: AddonState) {
      && (a.installed ==> installed)
      && (installed && outdated ==> a.installed && a.outdated)
      && (a.autoUpdate ==> autoUpdate) && (a.started ==> started)
    }
  }

  const ABSENT := AddonState(false, false, false, false, map[])

  datatype VersionInfo = VersionInfo(version: string, latest: string)

  /** The add-on store: slugs it offers, registered repositories, and what each
      repository would add. */
  datatype Store = Store(slugs: seq<string>, repos: seq<string>, catalog: map<string, seq<string>>) {
    function Register(url: string): Store {
      if url in repos then this
      else Store(slugs + (if url in catalog then catalog[url] else []), repos + [url], catalog)
    }
  }

  /** `self` is the full slug that Supervisor's alias "self" stands for. */
  datatype Device = Device(addons: map<string, AddonState>, store: Store, self: string,
                           os: VersionInfo, core: VersionInfo, owner: bool) {
    function Key(slug: string): string {
      if slug == SELF then self else slug
    }

    function State(slug: string): AddonState {
      if Key(slug) in addons then addons[Key(slug)] else ABSENT
    }

    function With(slug: string, a: AddonState): Device {
      this.(addons := addons[Key(slug) := a])
    }
  }

  const SELF := "self"

  /** One request. `legacy` marks the second endpoint form of a mutation. */
  datatype Op =
    | GetStore | GetRepositories | GetInfo(slug: string) | GetOS | GetCore | GetOnboarding | GetClaim
    | Probe | Login | Token | Wizard
    | AddRepository(url: string) | Reload | CreateOwner
    | Install(slug: string, legacy: bool) | Update(slug: string, legacy: bool)
    | SetOptions(slug: string, options: Options) | SetAutoUpdate(slug: string, on: bool)
    | Start(slug: string) | Restart(slug: string)
    | UpdateOS | UpdateCore
  {
    /** Supervisor refuses to change an add-on that is not installed. */
    predicate Accepts(d: Device) {
      (Update? || SetOptions? || SetAutoUpdate? || Start? || Restart?) ==> d.State(slug).installed
    }

    function Apply(d: Device): Device {
      match this
      case AddRepository(url) => d.(store := d.store.Register(url))
      case CreateOwner => d.(owner := true)
      case Install(s, _) => d.With(s, d.State(s).(installed := true, outdated := false))
      case Update(s, _) => d.With(s, d.State(s).(outdated := false))
      case SetOptions(s, o) => d.With(s, d.State(s).(options := o))
      case SetAutoUpdate(s, on) => d.With(s, d.State(s).(autoUpdate := on))
      case Start(s) => d.With(s, d.State(s).(started := true))
      case Restart(s) => d.With(s, d.State(s).(started := true))
      case UpdateOS => d.(os := VersionInfo(d.os.latest, d.os.latest))
      case UpdateCore => d.(core := VersionInfo(d.core.latest, d.core.latest))
      case _ => d
    }
  }

  /** What becomes of an effect: it works; it is reported as done but changes
      nothing; the other side rejects it; or the answer is lost, before or after
      the change was made. A disk write succeeds only on Done. */
  datatype Fate = Done | Ignored | Rejected | LostBefore | LostAfter

  datatype Marker = Marker(inProgress: bool, updateId: string)

  const CLEAR := Marker(false, "")

  datatype Status = Started | Ok | Failed

  datatype Event =
    | Request(op: Op, before: Device, fate: Fate)
    | Committed(marker: Marker)
    | WriteFailed
    | Report(status: Status, id: string)
  {
    /** Whether the request changed what it was sent to change. */
    predicate Effective()
      requires Request?
    {
      op.Accepts(before) && (fate == Done || fate == LostAfter)
    }

    /** Whether the info request for an installed add-on was rejected. */
    predicate Misleads() {
      Request? && op.GetInfo? && before.State(op.slug).installed && fate == Rejected
    }
  }

  /** `tmp` is the marker's temporary file, `file` the one a boot reads. */
  datatype World = World(device: Device, file: Marker, tmp: Option<Marker>, fates: seq<Fate>, trace: seq<Event>)

  /** Err(true) is a rejection by Supervisor, Err(false) a transport failure. */
  datatype Reply<+T> = Good(value: T) | Err(soft: bool) | Crash {
    predicate IsFailure() {
      !Good?
    }

    function PropagateFailure<U>(): Reply<U>
      requires IsFailure()
    {
      if Err? then Err(soft) else Crash
    }

    function Extract(): T
      requires Good?
    {
      value
    }
  }

  datatype Outcome<+T> = Outcome(w: World, reply: Reply<T>) {
    predicate IsFailure() {
      reply.IsFailure()
    }

    function PropagateFailure<U>(): Outcome<U>
      requires IsFailure()
    {
      Outcome(w, reply.PropagateFailure())
    }

    function Extract(): (World, T)
      requires !IsFailure()
    {
      (w, reply.value)
    }
  }

  predicate Fresh(d: Device, slug: string) {
    d.State(slug).Fresh()
  }

  predicate Current(d: Device, slug: string) {
    d.State(slug).Current()
  }

  /** Add-on work only ever gains: nothing installed, fresh, self-updating or
      started is lost, and the system is left alone. */
  ghost predicate Gains(d: Device, d': Device) {
    && d'.self == d.self && d'.os == d.os && d'.core == d.core && d'.owner == d.owner
    && forall s :: d'.State(s).NoWorseThan(d.State(s))
  }

  /** Every effect that is left will work. */
  ghost predicate AllDone(w: World) {
    forall i :: 0 <= i < |w.fates| ==> w.fates[i] == Done
  }

  /** No effect that is left reports success without happening. */
  ghost predicate Sincere(w: World) {
    forall i :: 0 <= i < |w.fates| ==> w.fates[i] != Ignored
  }

  lemma GainsTransitive()
    ensures forall a, b, c :: Gains(a, b) && Gains(b, c) ==> Gains(a, c)
  {
  }

  /** The kinds of event that the claims are about. A misread is Supervisor rejecting
      the info request for an add-on that is installed. */
  datatype Kind =
    | Call | Trigger | Mark | Mutation | Installed(key: string) | OwnerMade | Misread | MisreadOf(key: string)
  {
    predicate Picks(e: Event) {
      match this
      case Call => e.Request?
      case Trigger => e.Request? && Triggers(e.op)
      case Mark => !e.Request?
      case Mutation => e.Request? && Mutates(e.op)
      case Installed(key) => e.Request? && e.op.Install? && e.before.Key(e.op.slug) == key && e.Effective()
      case OwnerMade => e.Request? && e.op.CreateOwner? && e.Effective()
      case Misread => e.Misleads()
      case MisreadOf(key) => e.Misleads() && e.before.Key(e.op.slug) == key
    }
  }

  /** A request that reboots the unit or restarts this process. */
  predicate Triggers(op: Op) {
    op.UpdateOS? || op.UpdateCore? || (op.Update? && op.slug == SELF)
  }

  /** A request that changes the store or an add-on. */
  predicate Mutates(op: Op) {
    op.AddRepository? || op.Install? || op.Update? || op.SetOptions? || op.Start? || op.Restart?
  }

  /** The events of one kind, in order. */
  ghost function Select(k: Kind, t: seq<Event>): seq<Event> {
    if t == [] then [] else
    Select(k, t[..|t| - 1]) + (if k.Picks(t[|t| - 1]) then [t[|t| - 1]] else [])
  }

  lemma SelectAppend(k: Kind, t: seq<Event>, e: Event)
    ensures Select(k, t + [e]) == if k.Picks(e) then Select(k, t) + [e] else Select(k, t)
  {
    assert (t + [e])[..|t|] == t;
  }

  /** What one more request adds to each selection. */
  lemma SelectRequest(t: seq<Event>, e: Event)
    requires e.Request?
    ensures Select(Mark, t + [e]) == Select(Mark, t)
    ensures Select(Call, t + [e]) == Select(Call, t) + [e]
    ensures Select(Trigger, t + [e]) == if Triggers(e.op) then Select(Trigger, t) + [e] else Select(Trigger, t)
    ensures !Mutates(e.op) ==> Select(Mutation, t + [e]) == Select(Mutation, t)
  {
    hide Select;
    SelectAppend(Mark, t, e);
    SelectAppend(Call, t, e);
    SelectAppend(Trigger, t, e);
    SelectAppend(Mutation, t, e);
  }

  /** w' comes later in the same life: no marker or report event came between,
      the fates left are no worse, and the marker is as it was. */
  ghost predicate Follows(w: World, w': World) {
    && Select(Mark, w'.trace) == Select(Mark, w.trace)
    && (AllDone(w) ==> AllDone(w'))
    && (Sincere(w) ==> Sincere(w'))
    && w'.file == w.file && w'.tmp == w.tmp
  }

  /** No request of the given kind came between. */
  ghost predicate Without(k: Kind, w: World, w': World) {
    Select(k, w'.trace) == Select(k, w.trace)
  }

  /** One call to Supervisor (or Core): transport.Call. */
  function Send(w: World, op: Op): (r: Outcome<()>)
    ensures Follows(w, r.w)
    ensures r.reply.Crash? <==> w.fates == []
    ensures r.reply.Good? && Sincere(w) ==> op.Accepts(w.device) && r.w.device == op.Apply(w.device)
    ensures r.w.device in {w.device, op.Apply(w.device)}
    ensures AllDone(w) && op.Accepts(w.device) ==> !r.reply.Err?
    ensures r.reply == Err(true) ==> r.w.device == w.device
    ensures w.fates != [] ==>
              Select(Call, r.w.trace) == Select(Call, w.trace) + [Request(op, w.device, w.fates[0])]
    ensures !Triggers(op) ==> Without(Trigger, w, r.w)
    ensures Triggers(op) && w.fates != [] ==>
              Select(Trigger, r.w.trace) == Select(Trigger, w.trace) + [Request(op, w.device, w.fates[0])]
    ensures !Mutates(op) ==> Without(Mutation, w, r.w)
  {
    hide Select, Op.Accepts, Op.Apply, Triggers, Mutates;
    if w.fates == [] then Outcome(w, Crash)
    else
      var fate := w.fates[0];
      SelectRequest(w.trace, Request(op, w.device, fate));
      var changed := op.Accepts(w.device) && (fate == Done || fate == LostAfter);
      Outcome(
        w.(device := if changed then op.Apply(w.device) else w.device,
           fates := w.fates[1..],
           trace := w.trace + [Request(op, w.device, fate)]),
        match fate
        case Done => if op.Accepts(w.device) then Good(()) else Err(true)
        case Ignored => Good(())
        case Rejected => Err(true)
        case _ => Err(false))
  }

  ghost function Number(k: Kind, w: World): nat {
    |Select(k, w.trace)|
  }

  /** From outside the gateway "self" is a slug like any other. */
  predicate NoAlias(d: Device) {
    d.self == SELF
  }

  function One(b: bool): nat {
    if b then 1 else 0
  }

  /** Every installation of the add-on is the first one, or goes with a misread of
      its info; `spare` more may do with neither, or as many misreads are left over. */
  ghost predicate Accounted(s: string, w: World, w': World, spare: int) {
    && Number(MisreadOf(s), w) <= Number(MisreadOf(s), w')
    && Number(Installed(s), w') + One(w.device.State(s).installed) + Number(MisreadOf(s), w)
       <= Number(Installed(s), w) + One(w'.device.State(s).installed) + Number(MisreadOf(s), w') + spare
  }

  /** Nothing is made undone, and the owner is created only where there is none. */
  ghost predicate Onward(w: World, w': World) {
    && Number(Misread, w) <= Number(Misread, w')
    && (forall s :: w.device.State(s).installed ==> w'.device.State(s).installed)
    && (w.device.owner ==> w'.device.owner)
    && w'.device.self == w.device.self
    && Number(OwnerMade, w') + One(w.device.owner) <= Number(OwnerMade, w) + One(w'.device.owner)
  }

  /** No more installations of any add-on than the first one and its misreads, and no
      more than one creation of the owner. */
  ghost predicate AtMostOnce(w: World, w': World) {
    Onward(w, w') && forall s :: Accounted(s, w, w', 0)
  }

  lemma AccountedTransitive(s: string, a: World, b: World, c: World, spare: int, more: int)
    requires Accounted(s, a, b, spare) && Accounted(s, b, c, more)
    ensures Accounted(s, a, c, spare + more)
  {
    hide Select;
  }

  lemma AtMostOnceTransitive()
    ensures forall a, b, c :: AtMostOnce(a, b) && AtMostOnce(b, c) ==> AtMostOnce(a, c)
  {
    hide Select, Accounted, Number, Device.State;
    forall a, b, c | AtMostOnce(a, b) && AtMostOnce(b, c) ensures AtMostOnce(a, c) {
      forall s ensures Accounted(s, a, c, 0) {
        AccountedTransitive(s, a, b, c, 0, 0);
      }
    }
  }

  lemma AtMostOnceReflexive()
    ensures forall w :: AtMostOnce(w, w)
  {
  }

  lemma ApplyKeepsInstalled(d: Device, op: Op)
    ensures forall s :: d.State(s).installed ==> op.Apply(d).State(s).installed
    ensures op.Apply(d).self == d.self && (d.owner ==> op.Apply(d).owner)
    ensures op.Install? ==> op.Apply(d).State(op.slug).installed
    ensures op.CreateOwner? ==> op.Apply(d).owner
  {
  }

  /** What a request adds to the counts. */
  lemma Counted(w: World, op: Op)
    requires w.fates != []
    ensures var e, w' := Request(op, w.device, w.fates[0]), Send(w, op).w;
      && Number(Misread, w') == Number(Misread, w) + One(Misread.Picks(e))
      && Number(OwnerMade, w') == Number(OwnerMade, w) + One(OwnerMade.Picks(e))
      && forall s ::
           && Number(Installed(s), w') == Number(Installed(s), w) + One(Installed(s).Picks(e))
           && Number(MisreadOf(s), w') == Number(MisreadOf(s), w) + One(MisreadOf(s).Picks(e))
  {
    hide Select, Op.Apply, Device.State, Kind.Picks;
    var e := Request(op, w.device, w.fates[0]);
    SelectAppend(Misread, w.trace, e);
    SelectAppend(OwnerMade, w.trace, e);
    forall s
      ensures Number(Installed(s), Send(w, op).w) == Number(Installed(s), w) + One(Installed(s).Picks(e))
      ensures Number(MisreadOf(s), Send(w, op).w) == Number(MisreadOf(s), w) + One(MisreadOf(s).Picks(e))
    {
      SelectAppend(Installed(s), w.trace, e);
      SelectAppend(MisreadOf(s), w.trace, e);
    }
  }

  /** One for the add-on that the request installs although it is installed. */
  function Spare(s: string, d: Device, op: Op): nat {
    One(op.Install? && d.Key(op.slug) == s && d.State(op.slug).installed)
  }

  /** Any request accounts for its installation, but for one that is not the first. */
  lemma SendAccounted(w: World, op: Op)
    requires op.CreateOwner? ==> !w.device.owner
    ensures Onward(w, Send(w, op).w)
    ensures forall s :: Accounted(s, w, Send(w, op).w, Spare(s, w.device, op))
  {
    hide Select, Op.Apply, Number;
    ApplyKeepsInstalled(w.device, op);
    if w.fates != [] {
      Counted(w, op);
    }
  }

  /** A request that does not repeat an installation or the owner's creation. */
  lemma SendOnce(w: World, op: Op)
    requires op.Install? ==> !w.device.State(op.slug).installed
    requires op.CreateOwner? ==> !w.device.owner
    ensures AtMostOnce(w, Send(w, op).w)
  {
    hide Select, Onward, Accounted, Send, Device.State;
    SendAccounted(w, op);
    forall s ensures Accounted(s, w, Send(w, op).w, 0) {
      assert Spare(s, w.device, op) == 0;
    }
  }
}

/** The Supervisor client (internal/supervisor/supervisor.go): what each typed
    operation requests and answers. */
module SupervisorSpec {
  import opened Common
  import opened Fleet
  import opened World

  datatype AddonInfo =
    AddonInfo(installed: bool, started: bool, autoUpdate: bool, updateAvailable: bool, options: Options)

  const NOT_INSTALLED := AddonInfo(false, false, false, false, map[])

  function InfoOf(a: AddonState): AddonInfo {
    AddonInfo(a.installed, a.started, a.autoUpdate, a.outdated, a.options)
  }

  lemma RegisterApplies(d: Device, url: string)
    ensures AddRepository(url).Apply(d) == d.(store := d.store.Register(url)) && Reload.Apply(d) == d
    ensures AddRepository(url).Accepts(d) && Reload.Accepts(d)
    ensures forall s :: d.(store := d.store.Register(url)).State(s) == d.State(s)
  {
  }

  /** The store reload after registering is best-effort. */
  function AddStoreRepository(w: World, url: string): (r: Outcome<()>)
    ensures Follows(w, r.w) && Gains(w.device, r.w.device)
    ensures r.reply.Good? && Sincere(w) ==> r.w.device.store == w.device.store.Register(url)
    ensures r.w.device.store in {w.device.store, w.device.store.Register(url)}
    ensures AtMostOnce(w, r.w)
    ensures forall s :: r.w.device.State(s) == w.device.State(s)
    ensures AllDone(w) ==> !r.reply.Err?
    ensures Without(Trigger, w, r.w)
  {
    hide Send, Select, AtMostOnce, Op.Apply, Op.Accepts, Device.State;
    AtMostOnceTransitive();
    RegisterApplies(w.device, url);
    RegisterApplies(Send(w, AddRepository(url)).w.device, url);
    SendOnce(w, AddRepository(url));
    var (w, _) :- Send(w, AddRepository(url));
    SendOnce(w, Reload);
    var reload := Send(w, Reload);
    Outcome(reload.w, if reload.reply.Crash? then Crash else Good(()))
  }

  function ResolveAddonSlug(w: World, a: Addon): (r: Outcome<Option<string>>)
    ensures Follows(w, r.w) && r.w.device == w.device
    ensures r.reply.Good? ==> r.reply.value == Resolved(w.device.store, a)
    ensures AllDone(w) ==> !r.reply.Err?
    ensures Without(Trigger, w, r.w) && Without(Mutation, w, r.w)
    ensures AtMostOnce(w, r.w)
  {
    hide AtMostOnce, Select, Send;
    AtMostOnceReflexive();
    SendOnce(w, GetStore);
    if a.slug != "" then Outcome(w, Good(Some(a.slug)))
    else
      var (w, _) :- Send(w, GetStore);
      Outcome(w, Good(FirstMatch(w.device.store.slugs, a)))
  }

  /** The full slug of an add-on, given what the store offers. */
  function Resolved(store: Store, a: Addon): (r: Option<string>)
    ensures r.Some? ==> a.Resolves(r.value)
  {
    if a.slug != "" then Some(a.slug) else FirstMatch(store.slugs, a)
  }

  lemma MisreadCounted(w: World, slug: string)
    ensures w.fates != [] && w.fates[0] == Rejected && w.device.State(slug).installed ==>
              Number(Misread, Send(w, GetInfo(slug)).w) == Number(Misread, w) + 1
  {
    hide Select, Device.State, Op.Apply, Number;
    if w.fates != [] {
      Counted(w, GetInfo(slug));
    }
  }

  /** A rejection by Supervisor counts as "not installed". */
  function GetAddonInfo(w: World, slug: string): (r: Outcome<AddonInfo>)
    ensures Follows(w, r.w) && r.w.device == w.device
    ensures r.reply.Good? ==> r.reply.value in {InfoOf(w.device.State(slug)), NOT_INSTALLED}
    ensures AllDone(w) ==> !r.reply.Err? && (r.reply.Good? ==> r.reply.value == InfoOf(w.device.State(slug)))
    ensures Without(Trigger, w, r.w) && Without(Mutation, w, r.w)
    ensures AtMostOnce(w, r.w)
    ensures r.reply.Good? && Number(Misread, r.w) == Number(Misread, w) ==>
              var a := w.device.State(slug);
              (r.reply.value.installed <==> a.installed) && (a.installed ==> r.reply.value == InfoOf(a))
  {
    hide AtMostOnce, Select;
    SendOnce(w, GetInfo(slug));
    MisreadCounted(w, slug);
    var r := Send(w, GetInfo(slug));
    match r.reply
    case Good(_) => Outcome(r.w, Good(InfoOf(w.device.State(slug))))
    case Err(soft) => Outcome(r.w, if soft then Good(NOT_INSTALLED) else Err(false))
    case Crash => Outcome(r.w, Crash)
  }

  /** The store form first; the legacy form only when Supervisor rejected it. */
  function Mutate(w: World, form: Op, legacy: Op): (r: Outcome<()>)
    ensures Follows(w, r.w)
  {
    var r := Send(w, form);
    if r.reply == Err(true) then
      var r := Send(r.w, legacy);
      Outcome(r.w, r.reply)
    else r
  }

  lemma InstallGains(d: Device, slug: string, legacy: bool)
    ensures var d' := Install(slug, legacy).Apply(d); Gains(d, d') && Fresh(d', slug) && d'.store == d.store
    ensures forall s :: Install(slug, legacy).Apply(d).State(s).options == d.State(s).options
  {
  }

  lemma UpdateGains(d: Device, slug: string, legacy: bool)
    ensures var d' := Update(slug, legacy).Apply(d); Gains(d, d') && d'.store == d.store
    ensures d.State(slug).installed ==> Fresh(Update(slug, legacy).Apply(d), slug)
  {
  }

  function InstallAddon(w: World, slug: string): (r: Outcome<()>)
    ensures Follows(w, r.w) && Gains(w.device, r.w.device) && r.w.device.store == w.device.store
    ensures r.reply.Good? && Sincere(w) ==> Fresh(r.w.device, slug)
    ensures AllDone(w) ==> !r.reply.Err?
    ensures Without(Trigger, w, r.w)
    ensures forall s :: r.w.device.State(s).options == w.device.State(s).options
  {
    hide Select, Send;
    InstallGains(w.device, slug, false);
    InstallGains(Send(w, Install(slug, false)).w.device, slug, true);
    Mutate(w, Install(slug, false), Install(slug, true))
  }

  function UpdateAddonLatest(w: World, slug: string): (r: Outcome<()>)
    ensures Follows(w, r.w) && Gains(w.device, r.w.device) && r.w.device.store == w.device.store
    ensures r.reply.Good? && Sincere(w) ==> Fresh(r.w.device, slug)
    ensures AllDone(w) && w.device.State(slug).installed ==> !r.reply.Err?
    ensures slug != SELF ==> Without(Trigger, w, r.w)
  {
    hide Select, Send;
    UpdateGains(w.device, slug, false);
    UpdateGains(Send(w, Update(slug, false)).w.device, slug, true);
    Mutate(w, Update(slug, false), Update(slug, true))
  }

  /** The requests of one mutation: its store form, and the legacy form only if
      Supervisor rejected the first. A lost answer is not tried again. */
  ghost predicate Forms(es: seq<Event>, d: Device, form: Op, legacy: Op) {
    && |es| <= 2
    && (|es| >= 1 ==> es[0].Request? && es[0].op == form && es[0].before == d)
    && (|es| == 2 ==>
          && (es[0].fate == Rejected || (es[0].fate == Done && !form.Accepts(d)))
          && es[1].Request? && es[1].op == legacy && es[1].before == d)
  }

  lemma MutateForms(w: World, form: Op, legacy: Op) returns (es: seq<Event>)
    ensures var r := Mutate(w, form, legacy);
      && Select(Call, r.w.trace) == Select(Call, w.trace) + es && Forms(es, w.device, form, legacy)
      && (r.reply.Good? ==> es != [])
  {
    hide Select, Op.Accepts, Op.Apply;
    es := [];
    if w.fates != [] {
      es := [Request(form, w.device, w.fates[0])];
      var first := Send(w, form);
      if first.reply == Err(true) && first.w.fates != [] {
        es := es + [Request(legacy, first.w.device, first.w.fates[0])];
        assert Select(Call, w.trace) + [es[0]] + [es[1]] == Select(Call, w.trace) + es;
      }
    }
  }
}

/** The client as the two halves of the fleet hold it: each method makes the
    requests, and gives the answer, that SupervisorSpec says. */
module SupervisorClient {
  import opened Common
  import opened Fleet
  import opened World
  import opened SupervisorSpec

  class Client {
    var w: World

    constructor (w: World)
      ensures this.w == w
    {
      this.w := w;
    }

    method Call(op: Op) returns (r: Reply<()>)
      modifies this
      ensures Outcome(w, r) == Send(old(w), op)
    {
      var outcome := Send(w, op);
      w := outcome.w;
      r := outcome.reply;
    }

    method RegisterRepository(url: string) returns (r: Reply<()>)
      modifies this
      ensures Outcome(w, r) == AddStoreRepository(old(w), url)
    {
      var _ :- Call(AddRepository(url));
      var reload := Call(Reload);
      r := if reload.Crash? then Crash else Good(());
    }

    method Resolve(a: Addon) returns (r: Reply<Option<string>>)
      modifies this
      ensures Outcome(w, r) == ResolveAddonSlug(old(w), a)
    {
      if a.slug != "" {
        return Good(Some(a.slug));
      }
      var _ :- Call(GetStore);
      var slugs := w.device.store.slugs;
      for i := 0 to |slugs|
        invariant FirstMatch(slugs, a) == FirstMatch(slugs[i..], a)
      {
        if a.Resolves(slugs[i]) {
          return Good(Some(slugs[i]));
        }
      }
      return Good(None);
    }

    method Info(slug: string) returns (r: Reply<AddonInfo>)
      modifies this
      ensures Outcome(w, r) == GetAddonInfo(old(w), slug)
    {
      var reply := Call(GetInfo(slug));
      match reply {
        case Good(_) => r := Good(InfoOf(w.device.State(slug)));
        case Err(soft) => r := if soft then Good(NOT_INSTALLED) else Err(false);
        case Crash => r := Crash;
      }
    }

    method MutateAddon(form: Op, legacy: Op) returns (r: Reply<()>)
      modifies this
      ensures Outcome(w, r) == Mutate(old(w), form, legacy)
    {
      r := Call(form);
      if r == Err(true) {
        r := Call(legacy);
      }
    }

    method InstallLatest(slug: string) returns (r: Reply<()>)
      modifies this
      ensures Outcome(w, r) == InstallAddon(old(w), slug)
    {
      r := MutateAddon(Install(slug, false), Install(slug, true));
    }

    method UpdateLatest(slug: string) returns (r: Reply<()>)
      modifies this
      ensures Outcome(w, r) == UpdateAddonLatest(old(w), slug)
    {
      r := MutateAddon(Update(slug, false), Update(slug, true));
    }
  }
}
