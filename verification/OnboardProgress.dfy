/** Onboarding gets there: on a device that can be set up, a run whose calls all work
    ends well with everything in place (internal/onboard/steps.go). */
module OnboardProgress {
  import opened Common
  import opened Fleet
  import opened World
  import opened SupervisorSpec
  import opened ZigbeeOptions
  import opened OnboardSpec
  import opened OnboardTheorems
  import UpdateTheorems
  import UpdateOutcome

  /** The work ended well, every call having worked, with at most n of them made. */
  ghost predicate Goes<T>(w: World, r: Outcome<T>, n: nat) {
    r.reply.Good? && AllDone(r.w) && |r.w.fates| + n >= |w.fates|
  }

  /** Every call to come works, and there are answers to n of them. */
  ghost predicate Answered(w: World, n: nat) {
    AllDone(w) && |w.fates| >= n
  }

  lemma SendGoes(w: World, op: Op)
    requires Answered(w, 1) && op.Accepts(w.device)
    ensures Goes(w, Send(w, op), 1) && Send(w, op).w.device == op.Apply(w.device)
  {
    hide Op.Apply, Op.Accepts, Select;
  }

  lemma InfoGoes(w: World, slug: string)
    requires Answered(w, 1)
    ensures var r := GetAddonInfo(w, slug);
      Goes(w, r, 1) && r.reply.value == InfoOf(w.device.State(slug)) && r.w.device == w.device
  {
    hide Send, Select, Device.State;
    SendGoes(w, GetInfo(slug));
  }

  lemma ResolveGoes(w: World, a: Addon)
    requires Answered(w, 1)
    ensures var r := ResolveAddonSlug(w, a);
      Goes(w, r, 1) && r.reply.value == Resolved(w.device.store, a) && r.w.device == w.device
  {
    hide Send, Select;
    SendGoes(w, GetStore);
  }

  // ---- repositories ----------------------------------------------------------------------

  lemma RegisterGoes(w: World, url: string)
    requires Answered(w, 2)
    ensures var r := AddStoreRepository(w, url);
      Goes(w, r, 2) && r.w.device == w.device.(store := w.device.store.Register(url))
  {
    hide Send, Select, Store.Register;
    SendGoes(w, AddRepository(url));
    SendGoes(Send(w, AddRepository(url)).w, Reload);
  }

  lemma RegisterEnlarges(first: Store, store: Store, url: string)
    requires UpdateOutcome.Enlarged(first, store)
    ensures UpdateOutcome.Enlarged(first, store.Register(url)) && url in store.Register(url).repos
  {
  }

  /** Every repository that is wanted and not there is registered, with all it offers. */
  lemma {:induction false} AddGoes(first: Store, w: World, have: seq<string>, want: seq<string>)
    requires Answered(w, 2 * |want|) && UpdateOutcome.Enlarged(first, w.device.store)
    ensures var r := AddMissing(w, have, want);
      && Goes(w, r, 2 * |want|)
      && r.w.device == w.device.(store := r.w.device.store)
      && UpdateOutcome.Enlarged(first, r.w.device.store)
      && (forall url :: url in w.device.store.repos ==> url in r.w.device.store.repos)
      && (forall url :: url in want && !RepoPresent(have, url) ==> url in r.w.device.store.repos)
    decreases |want|
  {
    hide AddStoreRepository, RepoPresent, UpdateOutcome.Enlarged, Store.Register, AtMostOnce, Gains, Select, AllDone;
    if want != [] {
      if RepoPresent(have, want[0]) {
        AddGoes(first, w, have, want[1..]);
      } else {
        var v := AddStoreRepository(w, want[0]).w;
        RegisterGoes(w, want[0]);
        RegisterEnlarges(first, w.device.store, want[0]);
        RegisterKeeps(w.device.store, want[0]);
        AddGoes(first, v, have, want[1..]);
      }
    }
  }

  lemma RegisterKeeps(store: Store, url: string)
    ensures forall r :: r in store.repos ==> r in store.Register(url).repos
  {
  }

  /** The store has the add-on, or a repository that the release needs and that is not
      there yet would bring it. */
  ghost predicate Available(setup: Setup, store: Store, a: Addon) {
    a.slug != "" || exists slug :: a.Resolves(slug) && (slug in store.slugs || Brought(setup, store, slug))
  }

  ghost predicate Brought(setup: Setup, store: Store, slug: string) {
    exists url :: url in RequiredRepositories(setup.manifest) && !RepoPresent(store.repos, url)
                  && url in store.catalog && slug in store.catalog[url]
  }

  lemma AvailableResolves(setup: Setup, before: Store, after: Store, a: Addon)
    requires Available(setup, before, a) && UpdateOutcome.Enlarged(before, after)
    requires forall url :: url in RequiredRepositories(setup.manifest) && !RepoPresent(before.repos, url) ==>
               url in after.repos
    ensures Resolved(after, a).Some?
  {
    hide Addon.Resolves, RequiredRepositories, RepoPresent;
    if a.slug == "" {
      var slug :| a.Resolves(slug) && (slug in before.slugs || Brought(setup, before, slug));
      if slug !in before.slugs {
        var url :| url in RequiredRepositories(setup.manifest) && !RepoPresent(before.repos, url)
                   && url in before.catalog && slug in before.catalog[url];
        NotPresent(before.repos, url);
      }
      assert slug in after.slugs;
    }
  }

  lemma NotPresent(repos: seq<string>, url: string)
    requires !RepoPresent(repos, url)
    ensures url !in repos
  {
    hide NormalizeRepo;
  }

  /** Add-ons that do not come from the store: in development, the agent. */
  predicate FromStore(setup: Setup, a: Addon) {
    a in setup.manifest.addons && !(IsAgent(a) && setup.dev)
  }

  lemma ReposGo(setup: Setup, w: World)
    requires Answered(w, 1 + 2 * |RequiredRepositories(setup.manifest)|)
    ensures var r := AddRepos(setup, w);
      && Goes(w, r, 1 + 2 * |RequiredRepositories(setup.manifest)|)
      && r.w.device == w.device.(store := r.w.device.store)
      && forall a :: Available(setup, w.device.store, a) ==> Resolved(r.w.device.store, a).Some?
  {
    hide AddMissing, RepoPresent, RequiredRepositories, Available, Resolved, Send, Registered, Sincere, AtMostOnce;
    hide Select, Store.Register;
    SendGoes(w, GetRepositories);
    var v := Send(w, GetRepositories).w;
    assert v.device == w.device;
    assert UpdateOutcome.Enlarged(v.device.store, v.device.store);
    AddGoes(v.device.store, v, v.device.store.repos, RequiredRepositories(setup.manifest));
    var r := AddRepos(setup, w);
    forall a | Available(setup, w.device.store, a) ensures Resolved(r.w.device.store, a).Some? {
      AvailableResolves(setup, w.device.store, r.w.device.store, a);
    }
  }

  // ---- installation ------------------------------------------------------------------------

  /** The add-on can be installed, or, a local agent, is. */
  predicate Able(setup: Setup, d: Device, a: Addon) {
    if IsAgent(a) && setup.dev then d.State(LOCAL_AGENT).installed else Resolved(d.store, a).Some?
  }

  lemma InstallGoes(w: World, slug: string)
    requires Answered(w, 1)
    ensures Goes(w, InstallAddon(w, slug), 1)
  {
    hide Send, Select, Op.Apply;
    SendGoes(w, Install(slug, false));
  }

  /** An add-on that resolves is installed, whether it was before or not. */
  lemma StoreInstallGoes(w: World, a: Addon)
    requires Answered(w, 3) && Resolved(w.device.store, a).Some?
    ensures var r := InstallStoreAddon(w, a);
      Goes(w, r, 3) && StoreAddonPresent(r.w.device, a) && r.w.device.store == w.device.store
  {
    hide ResolveAddonSlug, GetAddonInfo, InstallAddon, Resolved, Device.State, AtMostOnce, Select, Gains;
    ResolveGoes(w, a);
    var slug := Resolved(w.device.store, a).value;
    var v := ResolveAddonSlug(w, a).w;
    InfoGoes(v, slug);
    var u := GetAddonInfo(v, slug).w;
    InstallGoes(u, slug);
  }

  lemma {:induction false} InstallAllGoes(setup: Setup, w: World, addons: seq<Addon>)
    requires Answered(w, 3 * |addons|) && forall a :: a in addons ==> Able(setup, w.device, a)
    ensures Goes(w, InstallAll(setup, w, addons), 3 * |addons|)
    decreases |addons|
  {
    hide Able, InstallOne, Works, Select, AllDone, AddonPresent, Sincere;
    if addons != [] {
      var head := InstallOne(setup, w, addons[0]);
      OneGoes(setup, w, addons[0]);
      forall a | a in addons[1..] ensures Able(setup, head.w.device, a) {
        AbleStays(setup, w, head.w, a);
      }
      InstallAllGoes(setup, head.w, addons[1..]);
    }
  }

  lemma OneGoes(setup: Setup, w: World, a: Addon)
    requires Answered(w, 3) && Able(setup, w.device, a)
    ensures Goes(w, InstallOne(setup, w, a), 3)
  {
    hide InstallStoreAddon, GetAddonInfo, Resolved, Device.State, Select, AtMostOnce;
    if IsAgent(a) && setup.dev {
      InfoGoes(w, LOCAL_AGENT);
    } else {
      StoreInstallGoes(w, a);
    }
  }

  lemma AbleStays(setup: Setup, w: World, w': World, a: Addon)
    requires Works(w, w', {})
    ensures Able(setup, w.device, a) ==> Able(setup, w'.device, a)
  {
    hide AtMostOnce, Select, Resolved, Device.State;
  }

  lemma InstalledGoes(setup: Setup, w: World, a: Addon)
    requires Answered(w, 2)
    ensures var r := AddonInstalled(setup, w, a);
      Goes(w, r, 2) && r.w.device == w.device && (AddonPresent(setup, w.device, a) ==> r.reply.value)
  {
    hide ResolveAddonSlug, GetAddonInfo, Resolved, Device.State, Select, AtMostOnce;
    if IsAgent(a) && setup.dev {
      InfoGoes(w, LOCAL_AGENT);
    } else {
      ResolveGoes(w, a);
      var found := ResolveAddonSlug(w, a);
      if found.reply.value.Some? {
        InfoGoes(found.w, found.reply.value.value);
      }
    }
  }

  lemma {:induction false} AllInstalledGoes(setup: Setup, w: World, addons: seq<Addon>)
    requires Answered(w, 2 * |addons|)
    ensures var r := AllInstalled(setup, w, addons);
      && Goes(w, r, 2 * |addons|) && r.w.device == w.device
      && ((forall a :: a in addons ==> AddonPresent(setup, w.device, a)) ==> r.reply.value)
    decreases |addons|
  {
    hide AddonInstalled, AddonPresent, Select, AtMostOnce, AllDone;
    if addons != [] {
      InstalledGoes(setup, w, addons[0]);
      var first := AddonInstalled(setup, w, addons[0]);
      if first.reply.value {
        AllInstalledGoes(setup, first.w, addons[1..]);
      }
    }
  }

  // ---- checks ----------------------------------------------------------------------------------

  /** The agent's slug is known, or can be found out. */
  predicate SlugKnown(setup: Setup, store: Store, st: State) {
    st.agentSlug != "" || AgentSlugOf(setup, store).Some?
  }

  lemma AgentGoes(setup: Setup, w: World, st: State)
    requires Answered(w, 1) && SlugKnown(setup, w.device.store, st)
    ensures var r := ResolveAgent(setup, w, st); Goes(w, r, 1) && r.w.device == w.device
  {
    hide ResolveAddonSlug, Resolved, Select, AtMostOnce;
    if st.agentSlug == "" && !setup.dev {
      ResolveGoes(w, setup.manifest.Agent().value);
    }
  }

  lemma StartedGoes(w: World, slug: string)
    requires Answered(w, 1)
    ensures var r := IsStarted(w, slug); Goes(w, r, 1) && r.reply.value == w.device.State(slug).started
  {
    hide GetAddonInfo, Device.State, Select, AtMostOnce;
    InfoGoes(w, slug);
  }

  lemma OptionsGoes(setup: Setup, w: World, slug: string)
    requires Answered(w, 1)
    ensures var r := OptionsMatch(setup, w, slug);
      Goes(w, r, 1) && r.reply.value == AgentConfigured(setup, w.device, slug)
  {
    hide GetAddonInfo, Device.State, Select, AtMostOnce, OptionsSatisfied;
    InfoGoes(w, slug);
  }

  lemma BrokerSlugGoes(setup: Setup, w: World)
    requires Answered(w, 1)
    ensures Goes(w, BrokerSlug(setup, w), 1)
  {
    hide ResolveAddonSlug, Resolved, Select, AtMostOnce;
    var broker := setup.manifest.Find(BROKER_MATCH);
    if broker.Some? { ResolveGoes(w, broker.value); }
  }

  lemma ZigbeeSlugGoes(setup: Setup, w: World)
    requires Answered(w, 1) && setup.manifest.Find(ZIGBEE_MATCH).Some?
    ensures Goes(w, ZigbeeSlug(setup, w), 1)
  {
    hide ResolveAddonSlug, Resolved, Select, AtMostOnce;
    ResolveGoes(w, setup.manifest.Find(ZIGBEE_MATCH).value);
  }

  /** What a check or a verification may take at most. */
  function ReadCost(setup: Setup): nat {
    3 + 2 * |setup.manifest.addons|
  }

  lemma CheckAgentGoes(setup: Setup, s: StepName, w: World, st: State)
    requires NeedsAgent(s) && Answered(w, ReadCost(setup)) && SlugKnown(setup, w.device.store, st)
    ensures Goes(w, CheckAgent(setup, s, w, st), ReadCost(setup))
  {
    hide ResolveAgent, AllInstalled, OptionsMatch, IsStarted, Send, SlugKnown, Everything, AgentConfigured;
    hide Device.State, Select, AtMostOnce, Reads, AgentSlugOf, AddonPresent;
    AgentGoes(setup, w, st);
    var v := ResolveAgent(setup, w, st);
    match s {
      case InstallAddons => AllInstalledGoes(setup, v.w, setup.manifest.addons);
      case ConfigureAgent => OptionsGoes(setup, v.w, v.reply.value.agentSlug);
      case StartAgent => StartedGoes(v.w, v.reply.value.agentSlug);
      case AwaitProvision => SendGoes(v.w, GetClaim);
    }
  }

  lemma CheckDeviceGoes(setup: Setup, s: StepName, w: World)
    requires s in {Connect, AddonRepos, StartBroker, ConfigureZigbee} && Answered(w, ReadCost(setup))
    requires s == ConfigureZigbee && setup.zigbee.Configured() ==> setup.manifest.Find(ZIGBEE_MATCH).Some?
    ensures Goes(w, CheckDevice(setup, s, w), ReadCost(setup))
  {
    hide BrokerSlug, ZigbeeSlug, IsStarted, GetAddonInfo, Send, Everything, HaveRepos, TrimSpace;
    hide Device.State, Select, AtMostOnce, Reads, Resolved;
    match s {
      case Connect => SendGoes(w, Probe);
      case AddonRepos => SendGoes(w, GetRepositories);
      case StartBroker =>
        BrokerSlugGoes(setup, w);
        var v := BrokerSlug(setup, w);
        if v.reply.value.Some? { StartedGoes(v.w, v.reply.value.value); }
      case ConfigureZigbee =>
        if setup.zigbee.Configured() {
          ZigbeeSlugGoes(setup, w);
          var v := ZigbeeSlug(setup, w);
          if v.reply.value.Some? { InfoGoes(v.w, v.reply.value.value); }
        }
    }
  }

  lemma CheckGoes(setup: Setup, s: StepName, w: World, st: State)
    requires Answered(w, ReadCost(setup))
    requires NeedsAgent(s) ==> SlugKnown(setup, w.device.store, st)
    requires s == ConfigureZigbee && setup.zigbee.Configured() ==> setup.manifest.Find(ZIGBEE_MATCH).Some?
    ensures Goes(w, Check(setup, s, w, st), ReadCost(setup))
  {
    hide CheckAgent, CheckDevice, SlugKnown, Reads, Select, AllDone;
    if NeedsAgent(s) {
      CheckAgentGoes(setup, s, w, st);
    } else if s != OwnerAndToken {
      CheckDeviceGoes(setup, s, w);
    }
  }

  // ---- actions -----------------------------------------------------------------------------------

  /** What the action of a step needs to find. */
  predicate Fit(setup: Setup, s: StepName, d: Device, st: State) {
    match s
    case InstallAddons => forall a :: a in setup.manifest.addons ==> Able(setup, d, a)
    case StartBroker => Everything(setup, d)
    case ConfigureZigbee => Everything(setup, d) && setup.manifest.Find(ZIGBEE_MATCH).Some?
    case ConfigureAgent => SlugKnown(setup, d.store, st) && d.State(SlugOf(setup, d.store, st)).installed
    case StartAgent => d.State(st.agentSlug).installed
    case _ => true
  }

  /** The agent's slug as the run holds it, or finds it. */
  function SlugOf(setup: Setup, store: Store, st: State): string {
    if st.agentSlug != "" then st.agentSlug
    else match AgentSlugOf(setup, store) case Some(slug) => slug case None => ""
  }

  function ActCost(setup: Setup): nat {
    6 + 3 * |setup.manifest.addons| + 2 * |RequiredRepositories(setup.manifest)|
  }

  lemma AuthenticateGoes(w: World)
    requires Answered(w, 6)
    ensures Goes(w, Authenticate(w), 6)
  {
    hide Send, Select, AtMostOnce, Op.Apply;
    SendGoes(w, GetOnboarding);
    var v := Send(w, GetOnboarding).w;
    var sign := if v.device.owner then Login else CreateOwner;
    SendGoes(v, sign);
    TokensGo(SignInOrUp(w).w);
  }

  lemma TokensGo(w: World)
    requires Answered(w, 4)
    ensures Goes(w, ObtainToken(w), 4)
  {
    hide Send, Select, AtMostOnce, Reads, Op.Apply;
    SendGoes(w, Token);
    var v := Send(w, Token).w;
    SendGoes(v, Token);
    var u := OnboardSpec.Attempt(v, Token).w;
    SendGoes(u, Wizard);
    SendGoes(OnboardSpec.Attempt(u, Wizard).w, Wizard);
  }

  lemma ChangeGoes(w: World, op: Op)
    requires op.Start? || op.Restart? || op.SetOptions?
    requires Answered(w, 1) && w.device.State(op.slug).installed
    ensures var r := Send(w, op); Goes(w, r, 1) && r.w.device.State(op.slug).installed
  {
    hide Send, Select, Device.State;
    SendGoes(w, op);
    ApplyInstalled(w.device, op);
  }

  lemma ApplyInstalled(d: Device, op: Op)
    requires op.Start? || op.Restart? || op.SetOptions?
    ensures op.Apply(d).State(op.slug).installed == d.State(op.slug).installed
  {
  }

  /** What resolves is installed once everything is. */
  lemma ManifestInstalled(setup: Setup, d: Device, m: string)
    requires Everything(setup, d) && setup.manifest.Find(m).Some? && m != AGENT_MATCH
    ensures var slug := Resolved(d.store, setup.manifest.Find(m).value); slug.Some? && d.State(slug.value).installed
  {
    hide Resolved, Device.State;
    assert AddonPresent(setup, d, setup.manifest.Find(m).value);
  }

  lemma BrokerGoes(setup: Setup, w: World)
    requires Answered(w, 2) && Everything(setup, w.device)
    ensures Goes(w, ActBroker(setup, w), 2)
  {
    hide BrokerSlug, Send, Everything, Resolved, Device.State, Select, AtMostOnce, Works, Sincere, Reads;
    BrokerSlugGoes(setup, w);
    BrokerSlugReads(setup, w);
    var v := BrokerSlug(setup, w);
    if setup.manifest.Find(BROKER_MATCH).Some? {
      ManifestInstalled(setup, w.device, BROKER_MATCH);
      ChangeGoes(v.w, Op.Start(v.reply.value.value));
    }
  }

  lemma BrokerSlugReads(setup: Setup, w: World)
    ensures BrokerSlug(setup, w).w.device == w.device && ZigbeeSlug(setup, w).w.device == w.device
  {
    hide BrokerSlug, ZigbeeSlug, Resolved, AtMostOnce, Select, Sincere;
  }

  lemma ZigbeeGoes(setup: Setup, w: World)
    requires Answered(w, 4) && Everything(setup, w.device) && setup.manifest.Find(ZIGBEE_MATCH).Some?
    ensures Goes(w, ActZigbee(setup, w), 4)
  {
    hide ZigbeeSlug, PointAndRun, Everything, Resolved, Device.State, Select, AtMostOnce, Works, Sincere, Reads;
    hide ZigbeeUp;
    ZigbeeSlugGoes(setup, w);
    BrokerSlugReads(setup, w);
    ManifestInstalled(setup, w.device, ZIGBEE_MATCH);
    var v := ZigbeeSlug(setup, w);
    PointGoes(v.w, v.reply.value.value, setup.zigbee);
  }

  lemma PointGoes(w: World, slug: string, z: Zigbee)
    requires Answered(w, 3) && w.device.State(slug).installed
    ensures Goes(w, PointAndRun(w, slug, z), 3)
  {
    hide GetAddonInfo, Send, Merged, SerialSatisfied, Device.State, Select, AtMostOnce, Works, Sincere, Reads;
    InfoGoes(w, slug);
    var v := GetAddonInfo(w, slug);
    var options := Merged(v.reply.value.options, z);
    ChangeGoes(v.w, SetOptions(slug, options));
    var u := Send(v.w, SetOptions(slug, options));
    ChangeGoes(u.w, if v.reply.value.started then Restart(slug) else Op.Start(slug));
  }

  lemma ConfigureGoes(setup: Setup, w: World, slug: string)
    requires Answered(w, 3) && w.device.State(slug).installed
    ensures Goes(w, ConfigureAndReload(setup, w, slug), 3)
  {
    hide GetAddonInfo, Send, Device.State, Select, AtMostOnce, Works, Sincere, Reads, AgentConfigured, Honest, LastCall;
    ChangeGoes(w, SetOptions(slug, setup.agentOptions));
    var v := Send(w, SetOptions(slug, setup.agentOptions)).w;
    InfoGoes(v, slug);
    var u := GetAddonInfo(v, slug);
    if u.reply.value.started {
      ChangeGoes(u.w, Restart(slug));
    }
  }

  lemma ActAgentGoes(setup: Setup, w: World, st: State)
    requires Answered(w, 4) && Fit(setup, ConfigureAgent, w.device, st)
    ensures Goes(w, ActAgent(setup, w, st), 4)
  {
    hide ResolveAgent, ConfigureAndReload, Device.State, Select, AtMostOnce, Works, Sincere, Reads, AgentConfigured;
    hide Honest, LastCall, Resolved, Acted;
    AgentGoes(setup, w, st);
    var v := ResolveAgent(setup, w, st);
    assert v.reply.value.agentSlug == SlugOf(setup, w.device.store, st);
    ConfigureGoes(setup, v.w, v.reply.value.agentSlug);
  }

  lemma ActGoes(setup: Setup, s: StepName, w: World, st: State)
    requires Answered(w, ActCost(setup)) && Fit(setup, s, w.device, st)
    ensures Goes(w, Act(setup, s, w, st), ActCost(setup))
    ensures var r := Act(setup, s, w, st).reply;
      r.Good? ==> (s == OwnerAndToken ==> r.value.token) && (s == AwaitProvision ==> r.value.provisioned)
  {
    hide Authenticate, ActConfigure, AddRepos, InstallAll, ActBroker, ActZigbee, Send, Everything, SlugKnown, SlugOf;
    hide RequiredRepositories, Device.State, Select, Acted, StepFrame, Reached, Sincere, Able, BrokerUnresolved;
    hide AtMostOnce, Reads, Works, AgentSlugOf;
    match s {
      case Connect => SendGoes(w, Probe);
      case OwnerAndToken => AuthenticateGoes(w);
      case AddonRepos => ReposGo(setup, w);
      case InstallAddons => InstallAllGoes(setup, w, setup.manifest.addons);
      case StartBroker => BrokerGoes(setup, w);
      case ConfigureZigbee => ZigbeeGoes(setup, w);
      case ConfigureAgent => ActAgentGoes(setup, w, st);
      case StartAgent => ChangeGoes(w, Op.Start(st.agentSlug));
      case AwaitProvision => SendGoes(w, GetClaim);
    }
  }

  // ---- verifications ------------------------------------------------------------------------------

  /** What a step leaves of the run's own state. */
  predicate Held(s: StepName, st: State) {
    (s == OwnerAndToken ==> st.token) && (s == AwaitProvision ==> st.provisioned)
  }

  lemma VerifyZigbeeGoes(setup: Setup, w: World)
    requires Answered(w, 3) && ZigbeeUp(setup, w.device)
    ensures Goes(w, VerifyZigbee(setup, w), 3)
  {
    hide ZigbeeSlug, GetAddonInfo, IsStarted, SerialSatisfied, Resolved, Device.State, Select, AtMostOnce, TrimSpace;
    if setup.zigbee.Configured() {
      ZigbeeSlugGoes(setup, w);
      BrokerSlugReads(setup, w);
      var v := ZigbeeSlug(setup, w);
      InfoGoes(v.w, v.reply.value.value);
      StartedGoes(GetAddonInfo(v.w, v.reply.value.value).w, v.reply.value.value);
    }
  }

  lemma VerifyBrokerGoes(setup: Setup, w: World)
    requires Answered(w, 2) && BrokerUp(setup, w.device)
    ensures Goes(w, VerifyBroker(setup, w), 2)
  {
    hide BrokerSlug, IsStarted, Resolved, Device.State, Select, AtMostOnce;
    BrokerSlugGoes(setup, w);
    BrokerSlugReads(setup, w);
    var v := BrokerSlug(setup, w);
    if v.reply.value.Some? {
      StartedGoes(v.w, v.reply.value.value);
    }
  }

  lemma VerifyGoes(setup: Setup, s: StepName, w: World, st: State)
    requires Answered(w, ReadCost(setup)) && Reached(setup, s, w.device, st) && Held(s, st)
    ensures Goes(w, Verify(setup, s, w, st), ReadCost(setup))
  {
    hide AllInstalled, VerifyBroker, VerifyZigbee, OptionsMatch, IsStarted, Send, HaveRepos, AgentConfigured;
    hide BrokerUp, ZigbeeUp, AddonPresent, Device.State, Select, AtMostOnce, Reads, BrokerUnresolved;
    match s {
      case Connect => SendGoes(w, Probe);
      case OwnerAndToken => SendGoes(w, GetOnboarding);
      case AddonRepos => SendGoes(w, GetRepositories);
      case InstallAddons => AllInstalledGoes(setup, w, setup.manifest.addons);
      case StartBroker => VerifyBrokerGoes(setup, w);
      case ConfigureZigbee => VerifyZigbeeGoes(setup, w);
      case ConfigureAgent => OptionsGoes(setup, w, st.agentSlug);
      case StartAgent => StartedGoes(w, st.agentSlug);
      case AwaitProvision =>
    }
  }

  // ---- steps and runs ---------------------------------------------------------------------------------

  /** A device that can be set up: in development the agent is installed already, and
      otherwise the manifest has one; it has Zigbee2MQTT if there is a coordinator. */
  predicate Equipped(setup: Setup, d: Device) {
    && (if setup.dev then d.State(LOCAL_AGENT).installed else setup.manifest.Agent().Some?)
    && (setup.zigbee.Configured() ==> setup.manifest.Find(ZIGBEE_MATCH).Some?)
  }

  /** What holds before step i of a run that goes well. */
  ghost predicate Ready(setup: Setup, i: nat, d: Device, st: State)
    requires i <= |STEPS|
  {
    && Separate(setup) && NoAlias(d) && Equipped(setup, d) && StateKnown(setup, i, d, st) && Goals(setup, i, d)
    && (i <= 2 ==> forall a :: FromStore(setup, a) ==> Available(setup, d.store, a))
    && (i > 2 ==> forall a :: FromStore(setup, a) ==> Resolved(d.store, a).Some?)
    && (i > 1 ==> st.token) && (i > 8 ==> st.provisioned)
  }

  lemma ReadyGoals(setup: Setup, i: nat, d: Device, st: State)
    requires i <= |STEPS| && Ready(setup, i, d, st)
    ensures i > 3 ==> Everything(setup, d)
    ensures i > 2 ==> AgentSlugOf(setup, d.store).Some?
    ensures i > 2 ==> forall a :: a in setup.manifest.addons ==> Able(setup, d, a)
    ensures i > 3 ==> d.State(AgentSlugOf(setup, d.store).value).installed
  {
    hide Resolved, Device.State, Everything, HaveRepos, BrokerUp, ZigbeeUp, AgentConfigured, Separate;
    assert i > 3 ==> Goal(setup, STEPS[3], d);
    if i > 2 && !setup.dev {
      assert FromStore(setup, setup.manifest.Agent().value);
      if i > 3 {
        AgentInstalled(setup, d, AgentSlugOf(setup, d.store).value);
      }
    }
    if i > 2 {
      forall a | a in setup.manifest.addons ensures Able(setup, d, a) {
        assert !(IsAgent(a) && setup.dev) ==> FromStore(setup, a);
      }
    }
  }

  /** What the run holds once the check has passed by. */
  lemma CheckedFits(setup: Setup, i: nat, w: World, st: State)
    requires i < |STEPS| && Ready(setup, i, w.device, st)
    ensures var s := STEPS[i]; var r := Check(setup, s, w, st);
      && (NeedsAgent(s) ==> SlugKnown(setup, w.device.store, st))
      && (s == ConfigureZigbee && setup.zigbee.Configured() ==> setup.manifest.Find(ZIGBEE_MATCH).Some?)
      && r.w.device == w.device
      && (r.reply.Good? ==>
            && (s == ConfigureZigbee && !r.reply.value.done ==> setup.manifest.Find(ZIGBEE_MATCH).Some?)
            && (s != ConfigureZigbee || !r.reply.value.done ==> Fit(setup, s, w.device, r.reply.value.st))
            && r.reply.value.st.token == st.token
            && (r.reply.value.done && s == OwnerAndToken ==> st.token)
            && (r.reply.value.done && s == AwaitProvision ==> r.reply.value.st.provisioned))
  {
    hide Everything, HaveRepos, BrokerUp, ZigbeeUp, AgentConfigured, Device.State, Resolved, Select, AtMostOnce;
    hide CheckDevice, CheckAgent, AgentSlugOf, Able, Separate, Number, Goals;
    ReadyGoals(setup, i, w.device, st);
    assert NeedsAgent(STEPS[i]) ==> i >= 3;
    UnconfiguredDone(setup, w);
    AwaitDone(setup, w, st);
  }

  lemma UnconfiguredDone(setup: Setup, w: World)
    ensures !setup.zigbee.Configured() ==> CheckDevice(setup, ConfigureZigbee, w) == Outcome(w, Good(true))
  {
    hide TrimSpace, Select, AtMostOnce;
  }

  lemma AwaitDone(setup: Setup, w: World, st: State)
    ensures var r := CheckAgent(setup, AwaitProvision, w, st);
      r.reply.Good? && r.reply.value.done ==> r.reply.value.st.provisioned
  {
    hide ResolveAgent, ReadClaim, Select, AtMostOnce;
  }

  function StepCost(setup: Setup): nat {
    2 * ReadCost(setup) + ActCost(setup)
  }

  lemma StepGoes(setup: Setup, i: nat, w: World, st: State)
    requires i < |STEPS| && Ready(setup, i, w.device, st) && Answered(w, StepCost(setup))
    ensures var r := RunStep(setup, STEPS[i], w, st);
      Goes(w, r, StepCost(setup)) && Held(STEPS[i], r.reply.value) && (i > 1 ==> r.reply.value.token)
  {
    hide Check, Act, Verify, Ready, SlugKnown, Fit, Select, AtMostOnce, Reads, AllDone, Reached, StepFrame, Tells;
    hide ReadCost, ActCost, BrokerUnresolved;
    var s := STEPS[i];
    CheckedFits(setup, i, w, st);
    CheckGoes(setup, s, w, st);
    ReadyToken(setup, i, w.device, st);
    var check := Check(setup, s, w, st);
    if !check.reply.value.done {
      ActGoes(setup, s, check.w, check.reply.value.st);
      var act := Act(setup, s, check.w, check.reply.value.st);
      assert Sincere(check.w) by { DoneIsSincere(check.w); }
      VerifyGoes(setup, s, act.w, act.reply.value);
    }
  }

  lemma ReadyToken(setup: Setup, i: nat, d: Device, st: State)
    requires i <= |STEPS| && Ready(setup, i, d, st)
    ensures i > 1 ==> st.token
  {
    hide Goals;
  }

  lemma DoneIsSincere(w: World)
    ensures AllDone(w) ==> Sincere(w)
  {
  }

  /** Only the repository step changes the store, and no step takes an add-on away. */
  lemma StepLeaves(setup: Setup, i: nat, w: World, st: State)
    requires i < |STEPS|
    ensures var d, d' := w.device, RunStep(setup, STEPS[i], w, st).w.device;
      && (i != 2 ==> d'.store == d.store)
      && (forall slug :: d.State(slug).installed ==> d'.State(slug).installed)
  {
    hide RunStep, Select, Touched, Gains, Device.State;
    StepFrames(setup, STEPS[i], w, st);
    WorksOnce();
  }

  /** After the repository step every add-on of the store resolves. */
  lemma ReposStepResolves(setup: Setup, w: World, st: State)
    requires Answered(w, StepCost(setup))
    ensures var r := RunStep(setup, AddonRepos, w, st);
      forall a :: Available(setup, w.device.store, a) ==> Resolved(r.w.device.store, a).Some?
  {
    hide AddRepos, Verify, Available, Resolved, Select, AtMostOnce, HaveRepos, Send, RequiredRepositories, Reads;
    hide Tells, Acted, StepFrame, Reached, Sincere, AllDone;
    CheckGoes(setup, AddonRepos, w, st);
    DoneHasRepos(setup, w, st);
    var check := Check(setup, AddonRepos, w, st);
    if check.reply.value.done {
      forall a | Available(setup, w.device.store, a) ensures Resolved(w.device.store, a).Some? {
        NothingBrought(setup, w.device, a);
      }
    } else {
      ReposGo(setup, check.w);
      ActIsAddRepos(setup, w, st);
      forall a | Available(setup, w.device.store, a)
        ensures Resolved(RunStep(setup, AddonRepos, w, st).w.device.store, a).Some?
      {
        assert Available(setup, check.w.device.store, a);
      }
    }
  }

  lemma DoneHasRepos(setup: Setup, w: World, st: State)
    ensures var check := Check(setup, AddonRepos, w, st);
      && check.w.device == w.device
      && (check.reply.Good? && check.reply.value.done ==> HaveRepos(setup, w.device))
  {
    hide HaveRepos, Select, AtMostOnce, Everything, Number, CheckDevice;
  }

  lemma NothingBrought(setup: Setup, d: Device, a: Addon)
    requires HaveRepos(setup, d) && Available(setup, d.store, a)
    ensures Resolved(d.store, a).Some?
  {
    hide Addon.Resolves, RequiredRepositories, RepoPresent;
  }

  lemma ActIsAddRepos(setup: Setup, w: World, st: State)
    ensures var r := RunStep(setup, AddonRepos, w, st);
      var check := Check(setup, AddonRepos, w, st);
      check.reply.Good? && !check.reply.value.done ==>
        && check.w.device == w.device
        && r.w.device.store == AddRepos(setup, check.w).w.device.store
  {
    hide Check, AddRepos, Select, AtMostOnce, HaveRepos, RequiredRepositories, Tells, StepFrame, Reached, Sincere;
  }

  lemma StepReady(setup: Setup, i: nat, w: World, st: State)
    requires i < |STEPS| && Ready(setup, i, w.device, st) && Answered(w, StepCost(setup))
    ensures var r := RunStep(setup, STEPS[i], w, st); r.reply.Good? && Ready(setup, i + 1, r.w.device, r.reply.value)
  {
    hide RunStep, Goal, StateKnown, Separate, Select, AllDone, Available, Resolved, Device.State, Everything;
    var r := RunStep(setup, STEPS[i], w, st);
    StepGoes(setup, i, w, st);
    StepReaches(setup, i, w, st);
    AliasStays(setup, STEPS[i], w, st);
    StepLeaves(setup, i, w, st);
    forall j | 0 <= j < i ensures Goal(setup, STEPS[j], r.w.device) {
      StepKeeps(setup, i, j, w, st);
    }
    if i == 2 {
      ReposStepResolves(setup, w, st);
    }
  }

  /** Enough answers for the steps from i on. */
  function CostFrom(setup: Setup, i: nat): nat
    decreases |STEPS| - i
  {
    if i >= |STEPS| then 0 else StepCost(setup) + CostFrom(setup, i + 1)
  }

  lemma {:induction false} RunGoes(setup: Setup, i: nat, w: World, st: State)
    requires i <= |STEPS| && Ready(setup, i, w.device, st) && Answered(w, CostFrom(setup, i))
    ensures var r := Run(setup, STEPS[i..], w, st);
      r.reply.Good? && Ready(setup, |STEPS|, r.w.device, r.reply.value)
    decreases |STEPS| - i
  {
    hide RunStep, Ready, StepCost, AllDone;
    if i < |STEPS| {
      assert STEPS[i..][0] == STEPS[i] && STEPS[i..][1..] == STEPS[i + 1..];
      StepGoes(setup, i, w, st);
      StepReady(setup, i, w, st);
      var r := RunStep(setup, STEPS[i], w, st);
      RunGoes(setup, i + 1, r.w, r.reply.value);
    }
  }

  // ---- the unit that is set up ----------------------------------------------------------------------------

  /** The repositories a release needs are its own and those that its add-ons come from. */
  lemma RequiredExactly(m: Manifest, url: string)
    ensures url in RequiredRepositories(m) <==>
            url == m.addonRepository || exists a :: a in m.addons && !a.core && a.repository == url != ""
  {
    CommunityExactly(m.addons, url);
  }

  lemma {:induction false} CommunityExactly(addons: seq<Addon>, url: string)
    ensures url in CommunityRepos(addons) <==> exists a :: a in addons && !a.core && a.repository == url != ""
  {
    if addons != [] {
      CommunityExactly(addons[1..], url);
      assert addons == [addons[0]] + addons[1..];
    }
  }

  /** A repository's address as it may be written: blanks around it, `.git` and a slash
      after it. */
  ghost predicate Addresses(s: string, core: string) {
    exists a, git, slash, b :: Blank(a) && Blank(b) && git in {"", ".git"} && slash in {"", "/"}
                               && s == a + (core + git + slash) + b
  }

  /** An address without such decoration. */
  predicate PlainAddress(core: string) {
    core != "" && Trimmed(core) && core[|core| - 1] != '/' && !HasSuffix(core, ".git")
  }

  predicate SameLetter(c: char, d: char) {
    c == d || ('A' <= c <= 'Z' && d == c - 'A' + 'a') || ('A' <= d <= 'Z' && c == d - 'A' + 'a')
  }

  predicate SameLetters(s: string, t: string) {
    |s| == |t| && forall i :: 0 <= i < |s| ==> SameLetter(s[i], t[i])
  }

  lemma AddressRead(s: string, core: string)
    requires PlainAddress(core) && Addresses(s, core)
    ensures NormalizeRepo(s) == ToLower(core)
  {
    hide TrimSpace, IsSpace, ToLower;
    var a, git, slash, b :| Blank(a) && Blank(b) && git in {"", ".git"} && slash in {"", "/"}
                            && s == a + (core + git + slash) + b;
    var whole := core + git + slash;
    assert Trimmed(whole) by { StillTrimmed(core, git, slash); }
    TrimmedOf(a, whole, b);
    SuffixOff(core + git, slash, "/");
    SuffixOff(core, git, ".git");
  }

  lemma StillTrimmed(core: string, git: string, slash: string)
    requires PlainAddress(core) && git in {"", ".git"} && slash in {"", "/"}
    ensures Trimmed(core + git + slash)
  {
    var whole := core + git + slash;
    assert whole[0] == core[0];
    assert whole[|whole| - 1] in {core[|core| - 1], 't', '/'};
  }

  lemma SuffixOff(s: string, end: string, suffix: string)
    requires end in {"", suffix} && suffix != "" && (end == "" ==> !HasSuffix(s, suffix))
    ensures TrimSuffix(s + end, suffix) == s
  {
    if end == "" {
      assert s + end == s;
    } else {
      assert (s + end)[|s + end| - |suffix|..] == suffix;
      assert (s + end)[..|s|] == s;
    }
  }

  /** Two addresses are of one repository exactly if they differ in decoration and in
      the case of letters only. */
  lemma SameRepository(s: string, t: string, core: string, other: string)
    requires PlainAddress(core) && PlainAddress(other) && Addresses(s, core) && Addresses(t, other)
    ensures NormalizeRepo(s) == NormalizeRepo(t) <==> SameLetters(core, other)
  {
    hide NormalizeRepo, Addresses;
    AddressRead(s, core);
    AddressRead(t, other);
    var low, high := ToLower(core), ToLower(other);
    if low == high {
      forall i | 0 <= i < |core| ensures SameLetter(core[i], other[i]) {
        assert low[i] == high[i];
      }
    }
    if SameLetters(core, other) {
      forall i | 0 <= i < |core| ensures low[i] == high[i] {
        assert SameLetter(core[i], other[i]);
      }
    }
  }

  /** A unit that is set up, told without the steps: it has an owner and every repository
      that the release needs; every add-on of the manifest is installed; the broker runs;
      Zigbee2MQTT, if there is a coordinator, is pointed at it and runs; and the agent
      has the options it was to get and runs. */
  ghost predicate SetUp(setup: Setup, d: Device) {
    d.owner && HasRepositories(setup, d) && HasAddons(setup, d) && HasBroker(setup, d) && HasCoordinator(setup, d)
    && HasAgent(setup, d)
  }

  ghost predicate HasRepositories(setup: Setup, d: Device) {
    && RepoPresent(d.store.repos, setup.manifest.addonRepository)
    && forall a :: a in setup.manifest.addons && !a.core && a.repository != "" ==>
         RepoPresent(d.store.repos, a.repository)
  }

  ghost predicate HasAddons(setup: Setup, d: Device) {
    && (forall a :: a in setup.manifest.addons && (setup.dev ==> a.matchName != "smart_home_agent") ==>
          StoreAddonPresent(d, a))
  }

  ghost predicate HasBroker(setup: Setup, d: Device) {
    var broker := setup.manifest.Find("mosquitto");
    broker.Some? ==> Running(d, Resolved(d.store, broker.value))
  }

  ghost predicate HasCoordinator(setup: Setup, d: Device) {
    TrimSpace(setup.zigbee.port) != "" ==>
      var zigbee := setup.manifest.Find("zigbee2mqtt");
      && zigbee.Some?
      && var slug := Resolved(d.store, zigbee.value);
      Running(d, slug) && PointedAt(d.State(slug.value).options, setup.zigbee)
  }

  ghost predicate HasAgent(setup: Setup, d: Device) {
    var agent := setup.manifest.Find("smart_home_agent");
    var slug := if setup.dev then Some("local_smart_home_agent")
                else if agent.None? then None else Resolved(d.store, agent.value);
    && Running(d, slug)
    && var options := d.State(slug.value).options;
    forall k :: k in setup.agentOptions ==> k in options && options[k] == setup.agentOptions[k]
  }

  ghost predicate Running(d: Device, slug: Option<string>) {
    slug.Some? && d.State(slug.value).started
  }

  ghost predicate PointedAt(options: Options, z: Zigbee) {
    && "serial" in options && options["serial"].Obj?
    && var serial := options["serial"].fields;
    && "port" in serial && serial["port"] == Str(z.port)
    && (z.adapter != "" ==> "adapter" in serial && serial["adapter"] == Str(z.adapter))
  }

  lemma GoalsMean(setup: Setup, d: Device)
    requires Goals(setup, |STEPS|, d)
    ensures SetUp(setup, d)
  {
    hide Goal, HasRepositories, HasAddons, HasBroker, HasCoordinator, HasAgent;
    assert forall j :: 0 <= j < |STEPS| ==> Goal(setup, STEPS[j], d);
    assert Goal(setup, STEPS[1], d) && Goal(setup, STEPS[2], d) && Goal(setup, STEPS[3], d)
           && Goal(setup, STEPS[4], d) && Goal(setup, STEPS[5], d) && Goal(setup, STEPS[6], d)
           && Goal(setup, STEPS[7], d);
    RepositoriesMean(setup, d);
    AddonsMean(setup, d);
    AgentMeans(setup, d);
  }

  lemma RepositoriesMean(setup: Setup, d: Device)
    ensures Goal(setup, OwnerAndToken, d) ==> d.owner
    ensures Goal(setup, AddonRepos, d) ==> HasRepositories(setup, d)
  {
    hide RepoPresent, RequiredRepositories;
    if Goal(setup, AddonRepos, d) {
      RequiredExactly(setup.manifest, setup.manifest.addonRepository);
      forall a | a in setup.manifest.addons && !a.core && a.repository != ""
        ensures RepoPresent(d.store.repos, a.repository)
      {
        RequiredExactly(setup.manifest, a.repository);
      }
    }
  }

  lemma AddonsMean(setup: Setup, d: Device)
    ensures Goal(setup, InstallAddons, d) ==> HasAddons(setup, d)
    ensures Goal(setup, StartBroker, d) ==> HasBroker(setup, d)
    ensures Goal(setup, ConfigureZigbee, d) ==> HasCoordinator(setup, d)
  {
    hide Resolved, Device.State, TrimSpace, StoreAddonPresent;
    if Goal(setup, InstallAddons, d) {
      assert forall a :: a in setup.manifest.addons ==> AddonPresent(setup, d, a);
    }
  }

  lemma AgentMeans(setup: Setup, d: Device)
    ensures Goal(setup, ConfigureAgent, d) && Goal(setup, StartAgent, d) ==> HasAgent(setup, d)
  {
    hide Resolved, Device.State;
  }

  /** On any device that can be set up, however far it is already, a run in which every
      call works ends well, with the unit set up, a token in hand and the agent seen to
      have provisioned. */
  lemma OnboardingSucceeds(w: World, setup: Setup)
    requires AllDone(w) && |w.fates| >= CostFrom(setup, 0)
    requires NoAlias(w.device) && Separate(setup) && Equipped(setup, w.device)
    requires forall a :: FromStore(setup, a) ==> Available(setup, w.device.store, a)
    ensures var r := Run(setup, STEPS, w, FRESH);
      r.reply.Good? && SetUp(setup, r.w.device) && r.reply.value.token && r.reply.value.provisioned
  {
    hide Run, SetUp, StepCost, Goal, Separate, Available, Resolved;
    assert STEPS[0..] == STEPS;
    RunGoes(setup, 0, w, FRESH);
    GoalsMean(setup, Run(setup, STEPS, w, FRESH).w.device);
  }

  /** Whatever was done before and however this run goes, one that succeeds leaves the
      unit set up. */
  lemma SuccessMeansSetUp(w: World, runs: seq<Attempt>, last: Attempt)
    requires NoAlias(w.device) && Separate(last.setup)
    ensures var r := RunAttempt(After(w, runs), last); r.reply.Good? ==> SetUp(last.setup, r.w.device)
  {
    hide RunAttempt, SetUp, Goals, Separate;
    OnboardingResumes(w, runs, last);
    var r := RunAttempt(After(w, runs), last);
    if r.reply.Good? {
      GoalsMean(last.setup, r.w.device);
    }
  }

  // ---- the requests behind it ------------------------------------------------------------------------------

  lemma CallsThen(es: seq<Event>, a: World, b: World, more: seq<Event>, c: World)
    requires UpdateOutcome.Called(es, a, b) && UpdateOutcome.Called(more, b, c)
    ensures UpdateOutcome.Called(es + more, a, c)
  {
    hide Select;
    assert Select(Call, a.trace) + es + more == Select(Call, a.trace) + (es + more);
  }

  /** One more request, if the ones before were made. */
  lemma NextCall(es: seq<Event>, w: World, v: World, op: Op) returns (all: seq<Event>)
    requires UpdateOutcome.Called(es, w, v)
    ensures var r := Send(v, op);
      && UpdateOutcome.Called(all, w, r.w) && es <= all && |all| <= |es| + 1
      && (r.reply.Crash? <==> |all| == |es|)
      && (|all| > |es| ==> all[|es|] == Request(op, v.device, v.fates[0]) && v.fates != [])
      && (r.reply.Good? ==> v.fates != [] && v.fates[0] in {Done, Ignored})
  {
    hide Select, Op.Apply, Op.Accepts;
    var more := UpdateOutcome.SendTold(v, op);
    CallsThen(es, w, v, more, Send(v, op).w);
    all := es + more;
  }

  function SignInRequests(owner: bool): seq<Op> {
    [GetOnboarding, if owner then Login else CreateOwner, Token, Token, Wizard, Wizard]
  }

  /** Signing in asks for the owner first, logs in or creates one, exchanges the code for a
      token, which has to come, asks for the long-lived one and finishes the wizard. */
  lemma SignInCalls(w: World) returns (es: seq<Event>)
    ensures var r, ops := Authenticate(w), SignInRequests(w.device.owner);
      && UpdateOutcome.Called(es, w, r.w) && |es| <= 6
      && (forall i :: 0 <= i < |es| ==> es[i].Request? && es[i].op == ops[i])
      && (r.reply.Good? ==> |es| == 6 && forall i :: 0 <= i < 3 ==> es[i].fate in {Done, Ignored})
  {
    hide Select, Send, SignInOrUp, ObtainToken, AtMostOnce, Reads, UpdateOutcome.Called, Sincere;
    es := SignCalls(w);
    var signed := SignInOrUp(w);
    if signed.reply.Good? {
      var more := TokenCalls(signed.w);
      CallsThen(es, w, signed.w, more, Authenticate(w).w);
      es := es + more;
    }
  }

  lemma SignCalls(w: World) returns (es: seq<Event>)
    ensures var r := SignInOrUp(w); var ops := SignInRequests(w.device.owner);
      && UpdateOutcome.Called(es, w, r.w) && |es| <= 2
      && (forall i :: 0 <= i < |es| ==> es[i].Request? && es[i].op == ops[i])
      && (r.reply.Good? ==> |es| == 2 && forall i :: 0 <= i < 2 ==> es[i].fate in {Done, Ignored})
  {
    hide Select, Send, AtMostOnce, UpdateOutcome.Called, Sincere;
    StatusReads(w);
    NoCalls(w);
    es := NextCall([], w, w, GetOnboarding);
    var asked := Send(w, GetOnboarding);
    if asked.reply.Good? {
      es := NextCall(es, w, asked.w, if asked.w.device.owner then Login else CreateOwner);
    }
  }

  lemma StatusReads(w: World)
    ensures Send(w, GetOnboarding).w.device == w.device
  {
  }

  lemma NoCalls(w: World)
    ensures UpdateOutcome.Called([], w, w)
  {
    hide Select;
  }

  /** One more best-effort request. */
  lemma NextTry(es: seq<Event>, w: World, v: World, op: Op) returns (all: seq<Event>)
    requires UpdateOutcome.Called(es, w, v) && (op == Token || op == Wizard)
    ensures var r := OnboardSpec.Attempt(v, op);
      && UpdateOutcome.Called(all, w, r.w) && es <= all && |all| <= |es| + 1
      && (|all| > |es| ==> all[|es|].Request? && all[|es|].op == op)
      && (r.reply.Good? ==> |all| == |es| + 1)
  {
    hide Select, Send, AtMostOnce, Reads, UpdateOutcome.Called;
    all := NextCall(es, w, v, op);
  }

  lemma TokenCalls(w: World) returns (es: seq<Event>)
    ensures var r := ObtainToken(w);
      && UpdateOutcome.Called(es, w, r.w) && |es| <= 4
      && (forall i :: 0 <= i < |es| ==> es[i].Request? && es[i].op == [Token, Token, Wizard, Wizard][i])
      && (r.reply.Good? ==> |es| == 4 && es[0].fate in {Done, Ignored})
  {
    hide Select, Send, OnboardSpec.Attempt, AtMostOnce, Reads, UpdateOutcome.Called;
    NoCalls(w);
    es := NextCall([], w, w, Token);
    var first := Send(w, Token);
    if first.reply.Good? {
      es := NextTry(es, w, first.w, Token);
      var second := OnboardSpec.Attempt(first.w, Token);
      if second.reply.Good? {
        es := NextTry(es, w, second.w, Wizard);
        var third := OnboardSpec.Attempt(second.w, Wizard);
        if third.reply.Good? {
          es := NextTry(es, w, third.w, Wizard);
        }
      }
    }
  }

  /** Options load only at start: an add-on that was told to run is restarted with them,
      and any other is started. */
  lemma PointCalls(w: World, slug: string, z: Zigbee) returns (es: seq<Event>)
    ensures var r, a := PointAndRun(w, slug, z), w.device.State(slug);
      && UpdateOutcome.Called(es, w, r.w)
      && (r.reply.Good? ==>
            && |es| == 3 && es[0].Request? && es[1].Request? && es[2].Request?
            && es[0].op == GetInfo(slug) && es[1].op.SetOptions? && es[1].op.slug == slug
            && PointedAt(es[1].op.options, z)
            && (es[0].fate in {Done, Ignored} ==> es[2].op == if a.started then Restart(slug) else Op.Start(slug)))
  {
    hide Select, Send, AtMostOnce, Reads, UpdateOutcome.Called, Works, Merged, SerialSatisfied, Device.State, Sincere;
    assert UpdateOutcome.Called([], w, w) by { NoCalls(w); }
    es := NextCall([], w, w, GetInfo(slug));
    var info := GetAddonInfo(w, slug);
    InfoAnswer(w, slug);
    if info.reply.Good? {
      var options := Merged(info.reply.value.options, z);
      MergeThenSatisfied(info.reply.value.options, z);
      es := NextCall(es, w, info.w, SetOptions(slug, options));
      var written := Send(info.w, SetOptions(slug, options));
      if written.reply.Good? {
        es := NextCall(es, w, written.w, if info.reply.value.started then Restart(slug) else Op.Start(slug));
      }
    }
  }

  lemma InfoAnswer(w: World, slug: string)
    ensures var r := GetAddonInfo(w, slug);
      && r.w == Send(w, GetInfo(slug)).w
      && (r.reply.Good? ==> w.fates != [])
      && (r.reply.Good? && w.fates[0] in {Done, Ignored} ==> r.reply.value == InfoOf(w.device.State(slug)))
  {
    hide Select, Device.State, Op.Apply;
  }

  /** The last request was a probe, and Core answered it. */
  ghost predicate JustProbed(w: World) {
    var calls := Select(Call, w.trace);
    calls != [] && var last := calls[|calls| - 1]; last.Request? && last.op == Probe && last.fate in {Done, Ignored}
  }

  lemma ProbeTold(w: World)
    ensures var r := ProbeCore(w); r.reply == Good(true) ==> JustProbed(r.w)
  {
    hide Select, AtMostOnce, Op.Apply;
  }

  /** The connect step ends well only once Core has answered a probe. */
  lemma ConnectAnswered(setup: Setup, w: World, st: State)
    ensures var r := RunStep(setup, Connect, w, st); r.reply.Good? ==> JustProbed(r.w)
  {
    hide Select, AtMostOnce, Reads, ProbeCore, JustProbed, Acted, Tells, Sincere, Everything, Number;
    ProbeTold(w);
    var check := Check(setup, Connect, w, st);
    assert check.w == ProbeCore(w).w;
    if check.reply.Good? && !check.reply.value.done {
      ProbeTold(check.w);
      ProbeTold(Act(setup, Connect, check.w, check.reply.value.st).w);
    }
  }

  ghost predicate JustSeen(w: World) {
    var calls := Select(Call, w.trace);
    calls != [] && var last := calls[|calls| - 1]; last.Request? && last.op == GetClaim && last.fate == Done
  }

  lemma ClaimTold(w: World)
    ensures var r := ReadClaim(w); r.reply == Good(true) ==> JustSeen(r.w)
  {
    hide Select, AtMostOnce, Op.Apply;
  }

  /** The last step ends well only once the agent was seen to have provisioned. */
  lemma ProvisionSeen(setup: Setup, w: World, st: State)
    ensures var r := RunStep(setup, AwaitProvision, w, st); r.reply.Good? ==> JustSeen(r.w)
  {
    hide Select, AtMostOnce, Reads, ResolveAgent, ReadClaim, JustSeen, Acted, Tells, AgentChecked, Sincere, Number;
    ClaimTold(ResolveAgent(setup, w, st).w);
    var check := Check(setup, AwaitProvision, w, st);
    assert check == CheckProvisioned(setup, w, st);
    ClaimTold(check.w);
  }
}
