/** The onboarding steps (internal/onboard/steps.go), each a check, an action and a
    verification over the device. */
module OnboardSpec {
  import opened Common
  import opened Fleet
  import opened World
  import opened SupervisorSpec
  import opened ZigbeeOptions

  const LOCAL_AGENT := "local_smart_home_agent"

  /** The fixed inputs of a run. */
  datatype Setup = Setup(manifest: Manifest, agentOptions: Options, zigbee: Zigbee, dev: bool)

  /** What a run accumulates; a new process starts from FRESH. */
  datatype State = State(token: bool, agentSlug: string, provisioned: bool)

  const FRESH := State(false, "", false)

  datatype StepName = Connect | OwnerAndToken | AddonRepos | InstallAddons | StartBroker
                    | ConfigureZigbee | ConfigureAgent | StartAgent | AwaitProvision

  const STEPS := [Connect, OwnerAndToken, AddonRepos, InstallAddons, StartBroker,
                  ConfigureZigbee, ConfigureAgent, StartAgent, AwaitProvision]

  // ---- contracts shared by the steps ---------------------------------------

  /** Only reads came between. */
  ghost predicate Reads(w: World, w': World) {
    && w'.device == w.device && AtMostOnce(w, w') && Without(Mutation, w, w')
    && (Sincere(w) ==> Sincere(w'))
  }

  lemma ReadsCompose()
    ensures forall w :: Reads(w, w)
    ensures forall a, b, c :: Reads(a, b) && Reads(b, c) ==> Reads(a, c)
    ensures forall a, b :: Reads(a, b) ==> AtMostOnce(a, b) && b.device == a.device && (Sincere(a) ==> Sincere(b))
  {
    hide AtMostOnce, Select;
    AtMostOnceReflexive();
    AtMostOnceTransitive();
  }

  /** Add-on work came between that touched no options but those of `slugs`. */
  ghost predicate Works(w: World, w': World, slugs: set<string>) {
    && AtMostOnce(w, w') && Gains(w.device, w'.device) && w'.device.store == w.device.store
    && (Sincere(w) ==> Sincere(w'))
    && (NoAlias(w.device) ==> forall s :: s !in slugs ==> w'.device.State(s).options == w.device.State(s).options)
  }

  /** No info request was misread. */
  ghost predicate Honest(w: World, w': World) {
    Number(Misread, w') == Number(Misread, w)
  }

  // ---- resolving ------------------------------------------------------------

  predicate IsAgent(a: Addon) {
    a.matchName == AGENT_MATCH
  }

  function AgentSlugOf(setup: Setup, store: Store): Option<string> {
    if setup.dev then Some(LOCAL_AGENT)
    else match setup.manifest.Agent()
      case None => None
      case Some(a) => Resolved(store, a)
  }

  /** The agent's slug is resolved once and kept for the rest of the run. */
  function ResolveAgent(setup: Setup, w: World, st: State): (r: Outcome<State>)
    ensures Reads(w, r.w)
    ensures r.reply.Good? && st.agentSlug != "" ==> r.reply.value == st
    ensures r.reply.Good? && st.agentSlug == "" ==>
              var slug := AgentSlugOf(setup, w.device.store);
              slug.Some? && r.reply.value == st.(agentSlug := slug.value)
  {
    hide AtMostOnce, Select, ResolveAddonSlug;
    AtMostOnceReflexive();
    if st.agentSlug != "" then Outcome(w, Good(st))
    else if setup.dev then Outcome(w, Good(st.(agentSlug := LOCAL_AGENT)))
    else match setup.manifest.Agent()
      case None => Outcome(w, Err(false))
      case Some(a) =>
        var (w, found) :- ResolveAddonSlug(w, a);
        if found.None? then Outcome(w, Err(false))
        else Outcome(w, Good(st.(agentSlug := found.value)))
  }

  // ---- repositories ---------------------------------------------------------

  function ToLower(s: string): string {
    seq(|s|, i requires 0 <= i < |s| => if 'A' <= s[i] <= 'Z' then s[i] - 'A' + 'a' else s[i])
  }

  function TrimSuffix(s: string, suffix: string): string {
    if HasSuffix(s, suffix) then s[..|s| - |suffix|] else s
  }

  /** Cosmetic differences of a repository URL do not count. */
  function NormalizeRepo(u: string): string {
    ToLower(TrimSuffix(TrimSuffix(TrimSpace(u), "/"), ".git"))
  }

  predicate RepoPresent(have: seq<string>, want: string) {
    exists h :: h in have && NormalizeRepo(h) == NormalizeRepo(want)
  }

  /** The elements of s once each, in the order in which they first come. */
  function Dedupe(s: seq<string>): (r: seq<string>)
    ensures forall x :: x in r <==> x in s
    ensures forall i, j :: 0 <= i < j < |r| ==> r[i] != r[j]
  {
    if s == [] then [] else
    var init := Dedupe(s[..|s| - 1]);
    assert s == s[..|s| - 1] + [s[|s| - 1]];
    if s[|s| - 1] in init then init else init + [s[|s| - 1]]
  }

  function CommunityRepos(addons: seq<Addon>): seq<string> {
    if addons == [] then []
    else
      var first := addons[0];
      (if !first.core && first.repository != "" then [first.repository] else []) + CommunityRepos(addons[1..])
  }

  function RequiredRepositories(m: Manifest): seq<string> {
    Dedupe([m.addonRepository] + CommunityRepos(m.addons))
  }

  predicate HaveRepos(setup: Setup, d: Device) {
    forall r :: r in RequiredRepositories(setup.manifest) ==> RepoPresent(d.store.repos, r)
  }

  function CheckRepos(setup: Setup, w: World): (r: Outcome<bool>)
    ensures Reads(w, r.w)
    ensures r.reply.Good? ==> r.reply.value == HaveRepos(setup, w.device)
  {
    hide AtMostOnce, Select, HaveRepos;
    SendOnce(w, GetRepositories);
    var (w, _) :- Send(w, GetRepositories);
    Outcome(w, Good(HaveRepos(setup, w.device)))
  }

  lemma PresentStays(have: seq<string>, more: seq<string>, want: string)
    requires RepoPresent(have, want) && forall h :: h in have ==> h in more
    ensures RepoPresent(more, want)
  {
    hide NormalizeRepo;
  }

  lemma PresentOnceAdded(repos: seq<string>, want: string)
    requires want in repos
    ensures RepoPresent(repos, want)
  {
    hide NormalizeRepo;
  }

  /** Repositories are added and no add-on changes. */
  ghost predicate Registered(w: World, w': World) {
    && AtMostOnce(w, w') && Gains(w.device, w'.device)
    && (forall s :: w'.device.State(s) == w.device.State(s))
    && (forall h :: h in w.device.store.repos ==> h in w'.device.store.repos)
  }

  lemma RegisteredTransitive()
    ensures forall a, b, c :: Registered(a, b) && Registered(b, c) ==> Registered(a, c)
    ensures forall w :: Registered(w, w)
  {
    hide AtMostOnce, Device.State;
    AtMostOnceTransitive();
    AtMostOnceReflexive();
  }

  lemma AddsOne(w: World, url: string)
    ensures var r := AddStoreRepository(w, url);
      && Registered(w, r.w)
      && (r.reply.Good? && Sincere(w) ==> Sincere(r.w) && RepoPresent(r.w.device.store.repos, url))
  {
    hide AtMostOnce, Select, AddStoreRepository, NormalizeRepo, RepoPresent, Device.State;
    var r := AddStoreRepository(w, url);
    if r.reply.Good? && Sincere(w) {
      PresentOnceAdded(r.w.device.store.repos, url);
    }
  }

  function AddMissing(w: World, have: seq<string>, want: seq<string>): (r: Outcome<()>)
    ensures Registered(w, r.w)
    ensures r.reply.Good? && Sincere(w) ==>
              forall x :: x in want ==> RepoPresent(have, x) || RepoPresent(r.w.device.store.repos, x)
    decreases |want|
  {
    hide AtMostOnce, Select, AddStoreRepository, RepoPresent, Registered, Sincere;
    RegisteredTransitive();
    if want == [] then Outcome(w, Good(()))
    else if RepoPresent(have, want[0]) then AddMissing(w, have, want[1..])
    else
      AddsOne(w, want[0]);
      var (v, _) :- AddStoreRepository(w, want[0]);
      StillPresent(v, have, want);
      AddMissing(v, have, want[1..])
  }

  /** What is there stays there while the rest is added. */
  lemma StillPresent(w: World, have: seq<string>, want: seq<string>)
    requires want != []
    ensures RepoPresent(w.device.store.repos, want[0]) ==>
              RepoPresent(AddMissing(w, have, want[1..]).w.device.store.repos, want[0])
    decreases |want|, 0
  {
    hide AtMostOnce, Select, RepoPresent, Gains, Device.State;
    if RepoPresent(w.device.store.repos, want[0]) {
      PresentStays(w.device.store.repos, AddMissing(w, have, want[1..]).w.device.store.repos, want[0]);
    }
  }

  function AddRepos(setup: Setup, w: World): (r: Outcome<()>)
    ensures Registered(w, r.w)
    ensures r.reply.Good? && Sincere(w) ==> HaveRepos(setup, r.w.device)
  {
    hide AtMostOnce, Select, AddMissing, Registered, RepoPresent, Sincere, RequiredRepositories;
    var listed := Send(w, GetRepositories);
    ListKeeps(w);
    RegisteredTransitive();
    var (v, _) :- listed;
    HadStays(v, RequiredRepositories(setup.manifest));
    AddMissing(v, v.device.store.repos, RequiredRepositories(setup.manifest))
  }

  lemma ListKeeps(w: World)
    ensures Registered(w, Send(w, GetRepositories).w) && (Sincere(w) ==> Sincere(Send(w, GetRepositories).w))
  {
    hide AtMostOnce, Select;
    SendOnce(w, GetRepositories);
  }

  lemma HadStays(w: World, want: seq<string>)
    ensures var r := AddMissing(w, w.device.store.repos, want);
      r.reply.Good? && Sincere(w) ==> forall x :: x in want ==> RepoPresent(r.w.device.store.repos, x)
  {
    hide AtMostOnce, Select, AddMissing, RepoPresent, Gains, Device.State, Sincere;
    var r := AddMissing(w, w.device.store.repos, want);
    forall x | x in want && RepoPresent(w.device.store.repos, x) ensures RepoPresent(r.w.device.store.repos, x) {
      PresentStays(w.device.store.repos, r.w.device.store.repos, x);
    }
  }

  // ---- installation ---------------------------------------------------------

  /** The add-on resolves and what it resolves to is installed. */
  predicate StoreAddonPresent(d: Device, a: Addon) {
    Resolved(d.store, a).Some? && d.State(Resolved(d.store, a).value).installed
  }

  /** In development the agent is a local add-on and never comes from the store. */
  predicate AddonPresent(setup: Setup, d: Device, a: Addon) {
    if IsAgent(a) && setup.dev then d.State(LOCAL_AGENT).installed else StoreAddonPresent(d, a)
  }

  lemma PresentKept(setup: Setup, w: World, w': World, a: Addon)
    requires AddonPresent(setup, w.device, a) && Works(w, w', {})
    ensures AddonPresent(setup, w'.device, a)
  {
    hide AtMostOnce, Select, Resolved, Device.State;
  }

  function AddonInstalled(setup: Setup, w: World, a: Addon): (r: Outcome<bool>)
    ensures Reads(w, r.w)
    ensures r.reply == Good(true) ==> AddonPresent(setup, w.device, a)
    ensures r.reply == Good(false) && Honest(w, r.w) ==> !AddonPresent(setup, w.device, a)
  {
    hide AtMostOnce, Select, ResolveAddonSlug, GetAddonInfo, Resolved;
    AtMostOnceTransitive();
    if IsAgent(a) && setup.dev then
      var (w, info) :- GetAddonInfo(w, LOCAL_AGENT);
      Outcome(w, Good(info.installed))
    else
      var (v, found) :- ResolveAddonSlug(w, a);
      if found.None? then Outcome(v, Good(false)) else
      var r := GetAddonInfo(v, found.value);
      NeverFewer(w, v, r.w);
      var (v, info) :- r;
      Outcome(v, Good(info.installed))
  }

  /** If no request between the ends was misread, none on the way was. */
  lemma NeverFewer(a: World, b: World, c: World)
    requires AtMostOnce(a, b) && AtMostOnce(b, c)
    ensures Honest(a, c) ==> Honest(a, b) && Honest(b, c)
  {
  }

  function AllInstalled(setup: Setup, w: World, addons: seq<Addon>): (r: Outcome<bool>)
    ensures Reads(w, r.w)
    ensures r.reply == Good(true) ==> forall a :: a in addons ==> AddonPresent(setup, w.device, a)
    ensures r.reply == Good(false) && Honest(w, r.w) ==> exists a :: a in addons && !AddonPresent(setup, w.device, a)
    decreases |addons|
  {
    hide AtMostOnce, Select, AddonInstalled, AddonPresent;
    AtMostOnceReflexive();
    AtMostOnceTransitive();
    if addons == [] then Outcome(w, Good(true)) else
    var first := AddonInstalled(setup, w, addons[0]);
    if first.reply != Good(true) then first else
    var rest := AllInstalled(setup, first.w, addons[1..]);
    NeverFewer(w, first.w, rest.w);
    rest
  }

  lemma MisreadAccounted(w: World, slug: string)
    ensures w.fates != [] && w.fates[0] == Rejected && w.device.State(slug).installed ==>
              Accounted(w.device.Key(slug), w, Send(w, GetInfo(slug)).w, -1)
  {
    hide Select, Device.State, Op.Apply, Number;
    if w.fates != [] {
      Counted(w, GetInfo(slug));
    }
  }

  /** An answer "not installed" leaves one misread over if it is not true. */
  lemma ReadAccounted(w: World, slug: string)
    ensures var r := GetAddonInfo(w, slug);
      && Onward(w, r.w)
      && (r.reply.Good? && !r.reply.value.installed ==>
            forall s :: Accounted(s, w, r.w, 0 - Spare(s, w.device, Install(slug, false))))
  {
    hide Select, Onward, Accounted, Device.State;
    SendOnce(w, GetInfo(slug));
    MisreadAccounted(w, slug);
    var r := GetAddonInfo(w, slug);
    if r.reply.Good? && !r.reply.value.installed {
      forall s ensures Accounted(s, w, r.w, 0 - Spare(s, w.device, Install(slug, false))) {
        assert Accounted(s, w, r.w, 0);
      }
    }
  }

  function InstallStoreAddon(w: World, a: Addon): (r: Outcome<()>)
    ensures Works(w, r.w, {})
    ensures r.reply.Good? && Sincere(w) ==> StoreAddonPresent(r.w.device, a)
    ensures AllDone(w) && Resolved(w.device.store, a).Some? ==> !r.reply.Err?
  {
    hide AtMostOnce, Select, ResolveAddonSlug, GetAddonInfo, InstallAddon, Sincere, Resolved;
    AtMostOnceTransitive();
    var (v, found) :- ResolveAddonSlug(w, a);
    if found.None? then Outcome(v, Err(false)) else
    var (u, info) :- GetAddonInfo(v, found.value);
    if info.installed then Outcome(u, Good(())) else
    CheckedInstall(v, found.value);
    InstallAddon(u, found.value)
  }

  /** Both forms of an installation together install at most once. */
  lemma InstallAccounted(w: World, slug: string)
    ensures var w' := InstallAddon(w, slug).w;
      Onward(w, w') && forall s :: Accounted(s, w, w', Spare(s, w.device, Install(slug, false)))
  {
    hide Select, Send, Onward, Accounted, Spare;
    var first := Send(w, Install(slug, false));
    SendAccounted(w, Install(slug, false));
    if first.reply == Err(true) {
      RejectedUncounted(w, Install(slug, false));
      SendAccounted(first.w, Install(slug, true));
      var w' := Send(first.w, Install(slug, true)).w;
      OnwardTransitive(w, first.w, w');
      forall s ensures Accounted(s, w, w', Spare(s, w.device, Install(slug, false))) {
        SameSpare(s, w.device, slug);
        AccountedTransitive(s, w, first.w, w', 0, Spare(s, w.device, Install(slug, true)));
      }
    }
  }

  lemma SameSpare(s: string, d: Device, slug: string)
    ensures Spare(s, d, Install(slug, true)) == Spare(s, d, Install(slug, false))
  {
  }

  lemma OnwardTransitive(a: World, b: World, c: World)
    requires Onward(a, b) && Onward(b, c)
    ensures Onward(a, c)
  {
    hide Select, Device.State, Number;
  }

  lemma RejectedUncounted(w: World, op: Op)
    requires op.Install?
    ensures Send(w, op).reply == Err(true) ==> forall s :: Accounted(s, w, Send(w, op).w, 0)
  {
    hide Select, Device.State, Op.Apply, Number;
    if w.fates != [] {
      Counted(w, op);
    }
  }

  /** Asking before installing: a second installation takes a misread. */
  lemma CheckedInstall(w: World, slug: string)
    ensures var asked := GetAddonInfo(w, slug);
      asked.reply.Good? && !asked.reply.value.installed ==> AtMostOnce(w, InstallAddon(asked.w, slug).w)
  {
    hide Select, InstallAddon, Onward, Accounted, Spare;
    var asked := GetAddonInfo(w, slug);
    ReadAccounted(w, slug);
    if asked.reply.Good? && !asked.reply.value.installed {
      var w' := InstallAddon(asked.w, slug).w;
      InstallAccounted(asked.w, slug);
      OnwardTransitive(w, asked.w, w');
      forall s ensures Accounted(s, w, w', 0) {
        var spare: int := Spare(s, w.device, Install(slug, false));
        AccountedTransitive(s, w, asked.w, w', 0 - spare, spare);
      }
    }
  }

  function InstallAll(setup: Setup, w: World, addons: seq<Addon>): (r: Outcome<()>)
    ensures Works(w, r.w, {})
    ensures r.reply.Good? && Sincere(w) ==> forall a :: a in addons ==> AddonPresent(setup, r.w.device, a)
    decreases |addons|, 1
  {
    hide AtMostOnce, Select, InstallStoreAddon, GetAddonInfo, StoreAddonPresent, Works, Sincere, Device.State;
    WorksCompose();
    if addons == [] then Outcome(w, Good(()))
    else
      var head := InstallOne(setup, w, addons[0]);
      HeadStays(setup, head.w, addons);
      var (w, _) :- head;
      InstallAll(setup, w, addons[1..])
  }

  /** A local agent has to be there already. */
  function InstallOne(setup: Setup, w: World, a: Addon): (r: Outcome<()>)
    ensures Works(w, r.w, {})
    ensures r.reply.Good? && Sincere(w) ==> AddonPresent(setup, r.w.device, a)
  {
    hide AtMostOnce, Select, InstallStoreAddon, GetAddonInfo, StoreAddonPresent, Works, Sincere;
    if IsAgent(a) && setup.dev then
      ReadsWork();
      var (w, info) :- GetAddonInfo(w, LOCAL_AGENT);
      if info.installed then Outcome(w, Good(())) else Outcome(w, Err(false))
    else InstallStoreAddon(w, a)
  }

  lemma HeadStays(setup: Setup, w: World, addons: seq<Addon>)
    requires addons != []
    ensures AddonPresent(setup, w.device, addons[0]) ==>
              AddonPresent(setup, InstallAll(setup, w, addons[1..]).w.device, addons[0])
    decreases |addons|, 0
  {
    hide AtMostOnce, Select, AddonPresent, Works;
    if AddonPresent(setup, w.device, addons[0]) {
      PresentKept(setup, w, InstallAll(setup, w, addons[1..]).w, addons[0]);
    }
  }

  lemma WorksCompose()
    ensures forall w, slugs :: Works(w, w, slugs)
    ensures forall a, b, c, slugs :: Works(a, b, slugs) && Works(b, c, slugs) ==> Works(a, c, slugs)
    ensures forall a, b, slugs :: Works(a, b, slugs) && Sincere(a) ==> Sincere(b)
  {
    hide AtMostOnce, Select;
    AtMostOnceReflexive();
    AtMostOnceTransitive();
  }

  // ---- starting and configuring ---------------------------------------------

  lemma ApplyWorks(d: Device, op: Op)
    requires op.Start? || op.Restart? || op.SetOptions?
    ensures var d' := op.Apply(d); Gains(d, d') && d'.store == d.store
  {
  }

  lemma ApplyOptions(d: Device, op: Op)
    requires op.Start? || op.Restart? || op.SetOptions?
    ensures NoAlias(d) ==>
              forall s :: (op.SetOptions? ==> s != op.slug) ==> op.Apply(d).State(s).options == d.State(s).options
    ensures op.Apply(d).State(op.slug).options == if op.SetOptions? then op.options else d.State(op.slug).options
    ensures !op.SetOptions? ==> op.Apply(d).State(op.slug).started
    ensures op.SetOptions? ==> op.Apply(d).State(op.slug).started == d.State(op.slug).started
  {
  }

  /** The add-on has these options, if the request was to write them, and runs, if it
      was to start it. */
  ghost predicate TookEffect(d: Device, op: Op, d': Device)
    requires op.Start? || op.Restart? || op.SetOptions?
  {
    && d'.State(op.slug).options == (if op.SetOptions? then op.options else d.State(op.slug).options)
    && (!op.SetOptions? ==> d'.State(op.slug).started)
    && d'.store == d.store
  }

  lemma SendWorks(w: World, op: Op)
    requires op.Start? || op.Restart? || op.SetOptions?
    ensures var r := Send(w, op);
      && Works(w, r.w, if op.SetOptions? then {op.slug} else {})
      && (Sincere(w) && r.reply.Good? ==> TookEffect(w.device, op, r.w.device))
      && (r.w.device == w.device || TookEffect(w.device, op, r.w.device))
  {
    hide AtMostOnce, Select, Op.Apply, Device.State, Sincere;
    SendOnce(w, op);
    ApplyWorks(w.device, op);
    ApplyOptions(w.device, op);
  }

  /** The last request was this one. */
  ghost predicate LastCall(w: World, op: Op) {
    var calls := Select(Call, w.trace);
    calls != [] && calls[|calls| - 1].Request? && calls[|calls| - 1].op == op
  }

  function BrokerSlug(setup: Setup, w: World): (r: Outcome<Option<string>>)
    ensures Reads(w, r.w)
    ensures var broker := setup.manifest.Find(BROKER_MATCH);
      r.reply.Good? ==> r.reply.value == if broker.None? then None else Resolved(w.device.store, broker.value)
  {
    hide AtMostOnce, Select, ResolveAddonSlug;
    AtMostOnceReflexive();
    match setup.manifest.Find(BROKER_MATCH)
    case None => Outcome(w, Good(None))
    case Some(a) => ResolveAddonSlug(w, a)
  }

  /** A manifest without a broker has none to start. */
  predicate BrokerUp(setup: Setup, d: Device) {
    var broker := setup.manifest.Find(BROKER_MATCH);
    broker.Some? ==>
      var slug := Resolved(d.store, broker.value);
      slug.Some? && d.State(slug.value).started
  }

  /** Whether the add-on runs, as its info tells. */
  function IsStarted(w: World, slug: string): (r: Outcome<bool>)
    ensures Reads(w, r.w)
    ensures r.reply == Good(true) ==> w.device.State(slug).started
    ensures r.reply == Good(false) && Honest(w, r.w) && w.device.State(slug).installed ==> !w.device.State(slug).started
  {
    hide AtMostOnce, Select, GetAddonInfo;
    var (w, info) :- GetAddonInfo(w, slug);
    Outcome(w, Good(info.started))
  }

  function CheckBroker(setup: Setup, w: World): (r: Outcome<bool>)
    ensures Reads(w, r.w)
    ensures r.reply == Good(true) ==> BrokerUp(setup, w.device)
    ensures r.reply == Good(false) && Honest(w, r.w) && Everything(setup, w.device) ==> !BrokerUp(setup, w.device)
  {
    hide AtMostOnce, Select, BrokerSlug, IsStarted;
    AtMostOnceTransitive();
    var (v, slug) :- BrokerSlug(setup, w);
    if slug.None? then Outcome(v, Good(setup.manifest.Find(BROKER_MATCH).None?)) else
    var r := IsStarted(v, slug.value);
    NeverFewer(w, v, r.w);
    r
  }

  /** Every add-on of the manifest is installed. */
  predicate Everything(setup: Setup, d: Device) {
    forall a :: a in setup.manifest.addons ==> AddonPresent(setup, d, a)
  }

  function ActBroker(setup: Setup, w: World): (r: Outcome<()>)
    ensures Works(w, r.w, {})
    ensures r.reply.Good? ==> !BrokerUnresolved(setup, w.device.store)
    ensures r.reply.Good? && Sincere(w) ==> BrokerUp(setup, r.w.device)
  {
    hide AtMostOnce, Select, BrokerSlug, Send, Works, Sincere, Device.State, Resolved;
    WorksCompose();
    ReadsWork();
    WorksAfterReads();
    var (w, slug) :- BrokerSlug(setup, w);
    if slug.None? then
      Outcome(w, if setup.manifest.Find(BROKER_MATCH).None? then Good(()) else Err(false))
    else
      SendWorks(w, Start(slug.value));
      Send(w, Start(slug.value))
  }

  function VerifyBroker(setup: Setup, w: World): (r: Outcome<()>)
    ensures Reads(w, r.w)
    ensures r.reply.Good? ==> BrokerUp(setup, w.device) || BrokerUnresolved(setup, w.device.store)
  {
    hide AtMostOnce, Select, BrokerSlug, IsStarted;
    AtMostOnceTransitive();
    var (w, slug) :- BrokerSlug(setup, w);
    if slug.None? then Outcome(w, Good(())) else
    var (w, started) :- IsStarted(w, slug.value);
    Outcome(w, if started then Good(()) else Err(false))
  }

  /** The manifest has a broker that the store does not offer yet. */
  predicate BrokerUnresolved(setup: Setup, store: Store) {
    var broker := setup.manifest.Find(BROKER_MATCH);
    broker.Some? && Resolved(store, broker.value).None?
  }

  function ZigbeeSlug(setup: Setup, w: World): (r: Outcome<Option<string>>)
    ensures Reads(w, r.w)
    ensures r.reply.Good? ==>
              var z := setup.manifest.Find(ZIGBEE_MATCH);
              z.Some? && r.reply.value == Resolved(w.device.store, z.value)
  {
    hide AtMostOnce, Select, ResolveAddonSlug;
    AtMostOnceReflexive();
    match setup.manifest.Find(ZIGBEE_MATCH)
    case None => Outcome(w, Err(false))
    case Some(a) => ResolveAddonSlug(w, a)
  }

  /** The coordinator, where there is one, is set and Zigbee2MQTT runs. */
  predicate ZigbeeUp(setup: Setup, d: Device) {
    setup.zigbee.Configured() ==>
      var z := setup.manifest.Find(ZIGBEE_MATCH);
      && z.Some?
      && var slug := Resolved(d.store, z.value);
      && slug.Some?
      && SerialSatisfied(d.State(slug.value).options, setup.zigbee) && d.State(slug.value).started
  }

  function CheckZigbee(setup: Setup, w: World): (r: Outcome<bool>)
    ensures Reads(w, r.w)
    ensures r.reply == Good(true) ==> ZigbeeUp(setup, w.device)
    ensures r.reply == Good(false) && Honest(w, r.w) && Everything(setup, w.device) ==> !ZigbeeUp(setup, w.device)
  {
    hide AtMostOnce, Select, ZigbeeSlug, GetAddonInfo, TrimSpace;
    AtMostOnceTransitive();
    AtMostOnceReflexive();
    if !setup.zigbee.Configured() then Outcome(w, Good(true)) else
    var (v, slug) :- ZigbeeSlug(setup, w);
    if slug.None? then Outcome(v, Good(false)) else
    var asked := GetAddonInfo(v, slug.value);
    NeverFewer(w, v, asked.w);
    var (v, info) :- asked;
    Outcome(v, Good(SerialSatisfied(info.options, setup.zigbee) && info.started))
  }

  function ActZigbee(setup: Setup, w: World): (r: Outcome<()>)
    ensures Works(w, r.w, ZigbeeSlugs(setup, w.device.store))
    ensures r.reply.Good? && Sincere(w) ==> ZigbeeUp(setup, r.w.device)
  {
    hide AtMostOnce, Select, ZigbeeSlug, PointAndRun, Works, Sincere, Device.State, Resolved, TrimSpace;
    WorksAfterReads();
    ReadsWork();
    var (w, slug) :- ZigbeeSlug(setup, w);
    if slug.None? then Outcome(w, Err(false)) else
    PointAndRun(w, slug.value, setup.zigbee)
  }

  /** Write the merged options, then restart a running add-on and start any other. */
  function PointAndRun(w: World, slug: string, z: Zigbee): (r: Outcome<()>)
    ensures Works(w, r.w, {slug})
    ensures r.reply.Good? && Sincere(w) ==>
              && r.w.device.store == w.device.store
              && SerialSatisfied(r.w.device.State(slug).options, z) && r.w.device.State(slug).started
    ensures SerialSatisfied(w.device.State(slug).options, z) ==> SerialSatisfied(r.w.device.State(slug).options, z)
  {
    hide AtMostOnce, Select, GetAddonInfo, Send, Merged, SerialSatisfied, Works, Sincere, Device.State;
    WorksAfterReads();
    ReadsWork();
    FewerSlugs();
    var (v, info) :- GetAddonInfo(w, slug);
    MergeThenSatisfied(info.options, z);
    SendWorks(v, SetOptions(slug, Merged(info.options, z)));
    var (u, _) :- Send(v, SetOptions(slug, Merged(info.options, z)));
    var run := if info.started then Restart(slug) else Start(slug);
    SendWorks(u, run);
    Send(u, run)
  }

  lemma FewerSlugs()
    ensures forall a, b, c, slugs :: Works(a, b, slugs) && Works(b, c, {}) ==> Works(a, c, slugs)
  {
    hide AtMostOnce, Select, Device.State;
    AtMostOnceTransitive();
  }

  function ZigbeeSlugs(setup: Setup, store: Store): set<string> {
    match setup.manifest.Find(ZIGBEE_MATCH)
    case None => {}
    case Some(z) => match Resolved(store, z) case None => {} case Some(s) => {s}
  }

  function VerifyZigbee(setup: Setup, w: World): (r: Outcome<()>)
    ensures Reads(w, r.w)
    ensures r.reply.Good? ==> ZigbeeUp(setup, w.device)
  {
    hide AtMostOnce, Select, ZigbeeSlug, GetAddonInfo, IsStarted, TrimSpace;
    AtMostOnceTransitive();
    AtMostOnceReflexive();
    if !setup.zigbee.Configured() then Outcome(w, Good(())) else
    var (w, slug) :- ZigbeeSlug(setup, w);
    if slug.None? then Outcome(w, Err(false)) else
    var (w, info) :- GetAddonInfo(w, slug.value);
    if !SerialSatisfied(info.options, setup.zigbee) then Outcome(w, Err(false)) else
    var (w, started) :- IsStarted(w, slug.value);
    Outcome(w, if started then Good(()) else Err(false))
  }

  predicate AgentConfigured(setup: Setup, d: Device, slug: string) {
    OptionsSatisfied(d.State(slug).options, setup.agentOptions)
  }

  /** The options match what the setup asks for, as the add-on's info tells. */
  function OptionsMatch(setup: Setup, w: World, slug: string): (r: Outcome<bool>)
    ensures Reads(w, r.w)
    ensures r.reply == Good(true) ==> AgentConfigured(setup, w.device, slug)
    ensures r.reply == Good(false) && Honest(w, r.w) && w.device.State(slug).installed ==>
              !AgentConfigured(setup, w.device, slug)
  {
    hide AtMostOnce, Select, GetAddonInfo;
    var (w, info) :- GetAddonInfo(w, slug);
    Outcome(w, Good(OptionsSatisfied(info.options, setup.agentOptions)))
  }

  /** Options load only at start, so an agent that already runs is restarted. */
  function ConfigureAndReload(setup: Setup, w: World, slug: string): (r: Outcome<()>)
    ensures Works(w, r.w, {slug})
    ensures r.reply.Good? && Sincere(w) ==> AgentConfigured(setup, r.w.device, slug)
    ensures AgentConfigured(setup, w.device, slug) ==> AgentConfigured(setup, r.w.device, slug)
    ensures r.reply.Good? && Honest(w, r.w) && w.device.State(slug).installed && w.device.State(slug).started ==>
              LastCall(r.w, Restart(slug))
  {
    hide AtMostOnce, Select, ReloadIfRunning, Works, Sincere, Device.State, Honest, LastCall;
    SendWorks(w, SetOptions(slug, setup.agentOptions));
    WrittenStillRuns(w, slug, setup.agentOptions);
    FewerSlugs();
    var written := Send(w, SetOptions(slug, setup.agentOptions));
    HonestReload(w, slug, setup.agentOptions);
    var (w, _) :- written;
    ReloadIfRunning(w, slug)
  }

  lemma WrittenStillRuns(w: World, slug: string, options: Options)
    ensures var w' := Send(w, SetOptions(slug, options)).w;
      && w'.device.State(slug).installed == w.device.State(slug).installed
      && w'.device.State(slug).started == w.device.State(slug).started
  {
  }

  lemma HonestReload(w: World, slug: string, options: Options)
    ensures var v := Send(w, SetOptions(slug, options)).w;
      Honest(w, ReloadIfRunning(v, slug).w) ==> Honest(v, ReloadIfRunning(v, slug).w)
  {
    hide AtMostOnce, Select, ReloadIfRunning, Send, Device.State;
    SendWorks(w, SetOptions(slug, options));
    WorksOnce();
    var v := Send(w, SetOptions(slug, options)).w;
    NeverFewer(w, v, ReloadIfRunning(v, slug).w);
  }

  /** Options load only at start, so a running add-on is restarted. */
  function ReloadIfRunning(w: World, slug: string): (r: Outcome<()>)
    ensures Works(w, r.w, {})
    ensures forall s :: r.w.device.State(s).options == w.device.State(s).options
    ensures r.reply.Good? && Honest(w, r.w) && w.device.State(slug).installed && w.device.State(slug).started ==>
              LastCall(r.w, Restart(slug))
  {
    hide AtMostOnce, Select, GetAddonInfo, Works, Device.State, Op.Apply;
    WorksAfterReads();
    ReadsWork();
    var read := GetAddonInfo(w, slug);
    var (v, info) :- read;
    if !info.started then Outcome(v, Good(())) else
    SendWorks(v, Restart(slug));
    RestartKeepsOptions(v, slug);
    RestartLast(v, slug);
    Send(v, Restart(slug))
  }

  lemma RestartKeepsOptions(w: World, slug: string)
    ensures forall s :: Send(w, Restart(slug)).w.device.State(s).options == w.device.State(s).options
  {
  }

  lemma RestartLast(w: World, slug: string)
    ensures Send(w, Restart(slug)).reply.Good? ==> LastCall(Send(w, Restart(slug)).w, Restart(slug))
  {
    hide Select, Op.Apply, Op.Accepts;
  }

  // ---- the owner --------------------------------------------------------------

  /** Best-effort calls: only a crash stops the run. */
  function Attempt(w: World, op: Op): (r: Outcome<()>)
    requires op == Token || op == Wizard
    ensures Reads(w, r.w)
    ensures !r.reply.Err?
  {
    hide AtMostOnce, Select;
    SendOnce(w, op);
    var r := Send(w, op);
    Outcome(r.w, if r.reply.Crash? then Crash else Good(()))
  }

  /** The owner may be created; nothing else of the device changes. */
  ghost predicate OwnerWork(w: World, w': World) {
    && AtMostOnce(w, w') && Without(Mutation, w, w')
    && w'.device in {w.device, w.device.(owner := true)}
  }

  /** Log in if there is an owner, create one if not. */
  function SignInOrUp(w: World): (r: Outcome<()>)
    ensures OwnerWork(w, r.w)
    ensures r.reply.Good? && Sincere(w) ==> r.w.device.owner
  {
    hide AtMostOnce, Select, Send;
    AtMostOnceTransitive();
    SendOnce(w, GetOnboarding);
    var (w, _) :- Send(w, GetOnboarding);
    var sign := if w.device.owner then Login else CreateOwner;
    SendOnce(w, sign);
    Send(w, sign)
  }

  /** The tokens and the rest of the wizard; only the first token has to come. */
  function ObtainToken(w: World): (r: Outcome<()>)
    ensures Reads(w, r.w)
  {
    hide AtMostOnce, Select, Send, Attempt, Reads;
    ReadsCompose();
    TokenReads(w);
    var (w, _) :- Send(w, Token);
    var (w, _) :- Attempt(w, Token);
    var (w, _) :- Attempt(w, Wizard);
    Attempt(w, Wizard)
  }

  lemma TokenReads(w: World)
    ensures Reads(w, Send(w, Token).w)
  {
    hide AtMostOnce, Select;
    SendOnce(w, Token);
  }

  /** An owner, and then a token. */
  function Authenticate(w: World): (r: Outcome<()>)
    ensures OwnerWork(w, r.w)
    ensures r.reply.Good? && Sincere(w) ==> r.w.device.owner
  {
    hide AtMostOnce, Select, SignInOrUp, ObtainToken;
    AtMostOnceTransitive();
    var (w, _) :- SignInOrUp(w);
    ObtainToken(w)
  }

  function VerifyOwner(w: World): (r: Outcome<()>)
    ensures Reads(w, r.w)
    ensures r.reply.Good? ==> w.device.owner
  {
    hide AtMostOnce, Select;
    SendOnce(w, GetOnboarding);
    var (w, _) :- Send(w, GetOnboarding);
    Outcome(w, if w.device.owner then Good(()) else Err(false))
  }

  // ---- the steps ----------------------------------------------------------------

  datatype Checked = Checked(done: bool, st: State)

  /** Whether Core answers a probe. */
  function ProbeCore(w: World): (r: Outcome<bool>)
    ensures Reads(w, r.w)
  {
    hide AtMostOnce, Select;
    SendOnce(w, Probe);
    var r := Send(w, Probe);
    Outcome(r.w, if r.reply.Crash? then Crash else Good(r.reply.Good?))
  }

  /** Whether the agent's log shows that it has provisioned. */
  function ReadClaim(w: World): (r: Outcome<bool>)
    ensures Reads(w, r.w)
  {
    hide AtMostOnce, Select;
    SendOnce(w, GetClaim);
    var (v, _) :- Send(w, GetClaim);
    Outcome(v, Good(w.fates[0] == Done))
  }

  /** The agent's slug was resolved on the way, if it was not known before. */
  ghost predicate AgentChecked(setup: Setup, w: World, st: State, r: Outcome<Checked>) {
    && Reads(w, r.w)
    && (r.reply.Good? ==>
          var slug := r.reply.value.st.agentSlug;
          && r.reply.value.st.token == st.token
          && (if st.agentSlug != "" then slug == st.agentSlug else AgentSlugOf(setup, w.device.store) == Some(slug)))
  }

  function CheckInstalled(setup: Setup, w: World, st: State): (r: Outcome<Checked>)
    ensures AgentChecked(setup, w, st, r)
    ensures r.reply.Good? && r.reply.value.done ==> Everything(setup, w.device)
    ensures r.reply.Good? && Honest(w, r.w) && !r.reply.value.done ==> !Everything(setup, w.device)
  {
    hide Honest;
    hide AtMostOnce, Select, ResolveAgent, AllInstalled, AgentSlugOf, AddonPresent, Device.State;
    hide Reads;
    ReadsCompose();
    var (v, st) :- ResolveAgent(setup, w, st);
    var asked := AllInstalled(setup, v, setup.manifest.addons);
    NeverFewer(w, v, asked.w);
    var (v, all) :- asked;
    Outcome(v, Good(Checked(all, st)))
  }

  function CheckConfigured(setup: Setup, w: World, st: State): (r: Outcome<Checked>)
    ensures AgentChecked(setup, w, st, r)
    ensures r.reply.Good? && r.reply.value.done ==> AgentConfigured(setup, w.device, r.reply.value.st.agentSlug)
    ensures r.reply.Good? && Honest(w, r.w) && !r.reply.value.done
            && w.device.State(r.reply.value.st.agentSlug).installed ==>
              !AgentConfigured(setup, w.device, r.reply.value.st.agentSlug)
  {
    hide Honest;
    hide AtMostOnce, Select, ResolveAgent, OptionsMatch, AgentSlugOf, AgentConfigured, Device.State;
    hide Reads;
    ReadsCompose();
    var (v, st) :- ResolveAgent(setup, w, st);
    var asked := OptionsMatch(setup, v, st.agentSlug);
    NeverFewer(w, v, asked.w);
    var (v, ok) :- asked;
    Outcome(v, Good(Checked(ok, st)))
  }

  function CheckStarted(setup: Setup, w: World, st: State): (r: Outcome<Checked>)
    ensures AgentChecked(setup, w, st, r)
    ensures r.reply.Good? && r.reply.value.done ==> w.device.State(r.reply.value.st.agentSlug).started
    ensures r.reply.Good? && Honest(w, r.w) && !r.reply.value.done
            && w.device.State(r.reply.value.st.agentSlug).installed ==>
              !w.device.State(r.reply.value.st.agentSlug).started
  {
    hide Honest;
    hide AtMostOnce, Select, ResolveAgent, IsStarted, AgentSlugOf, Device.State;
    hide Reads;
    ReadsCompose();
    var (v, st) :- ResolveAgent(setup, w, st);
    var asked := IsStarted(v, st.agentSlug);
    NeverFewer(w, v, asked.w);
    var (v, up) :- asked;
    Outcome(v, Good(Checked(up, st)))
  }

  function CheckProvisioned(setup: Setup, w: World, st: State): (r: Outcome<Checked>)
    ensures AgentChecked(setup, w, st, r)
  {
    hide AtMostOnce, Select, ResolveAgent, ReadClaim, AgentSlugOf;
    hide Reads;
    ReadsCompose();
    var (w, st) :- ResolveAgent(setup, w, st);
    var (w, seen) :- ReadClaim(w);
    Outcome(w, Good(Checked(seen, st.(provisioned := st.provisioned || seen))))
  }

  /** The device read of a check that needs nothing of the run's state. */
  function CheckDevice(setup: Setup, s: StepName, w: World): (r: Outcome<bool>)
    ensures Reads(w, r.w)
    ensures r.reply == Good(true) && Decisive(s) && !NeedsAgent(s) ==> Reached(setup, s, w.device, FRESH)
    ensures r.reply == Good(false) && Decisive(s) && !NeedsAgent(s) && Honest(w, r.w) && Everything(setup, w.device) ==>
              !Reached(setup, s, w.device, FRESH)
  {
    hide HaveRepos, Everything, BrokerUp, ZigbeeUp, Number;
    hide AtMostOnce, Select, ProbeCore, CheckRepos, CheckBroker, CheckZigbee;
    hide Reads;
    ReadsCompose();
    match s
    case Connect => ProbeCore(w)
    case AddonRepos => CheckRepos(setup, w)
    case StartBroker => CheckBroker(setup, w)
    case ConfigureZigbee => CheckZigbee(setup, w)
    case _ => Outcome(w, Good(false))
  }

  /** What a step is after, in terms of the agent slug that the run holds. */
  ghost predicate Reached(setup: Setup, s: StepName, d: Device, st: State) {
    match s
    case OwnerAndToken => d.owner
    case AddonRepos => HaveRepos(setup, d)
    case InstallAddons => Everything(setup, d)
    case StartBroker => BrokerUp(setup, d)
    case ConfigureZigbee => ZigbeeUp(setup, d)
    case ConfigureAgent => AgentConfigured(setup, d, st.agentSlug)
    case StartAgent => d.State(st.agentSlug).started
    case _ => true
  }

  predicate NeedsAgent(s: StepName) {
    s.InstallAddons? || s.ConfigureAgent? || s.StartAgent? || s.AwaitProvision?
  }

  /** The steps whose check reads their goal off the device. */
  predicate Decisive(s: StepName) {
    !s.Connect? && !s.OwnerAndToken? && !s.AwaitProvision?
  }

  /** A passed check means that the goal holds; a failed one, read honestly on a
      complete device, that it does not. */
  ghost predicate Tells(setup: Setup, s: StepName, w: World, r: Outcome<Checked>) {
    r.reply.Good? ==>
      var c := r.reply.value;
      && (c.done && s != OwnerAndToken && s != Connect ==> Reached(setup, s, w.device, c.st))
      && (!c.done && Decisive(s) && Honest(w, r.w) && Everything(setup, w.device)
          && (NeedsAgent(s) ==> w.device.State(c.st.agentSlug).installed) ==>
            !Reached(setup, s, w.device, c.st))
  }

  function CheckAgent(setup: Setup, s: StepName, w: World, st: State): (r: Outcome<Checked>)
    requires NeedsAgent(s)
    ensures AgentChecked(setup, w, st, r) && Tells(setup, s, w, r)
  {
    hide Everything, AgentConfigured, Device.State, Honest, AgentChecked;
    hide CheckInstalled, CheckConfigured, CheckStarted, CheckProvisioned, AgentSlugOf;
    match s
    case InstallAddons => CheckInstalled(setup, w, st)
    case ConfigureAgent => CheckConfigured(setup, w, st)
    case StartAgent => CheckStarted(setup, w, st)
    case AwaitProvision => CheckProvisioned(setup, w, st)
  }

  function Check(setup: Setup, s: StepName, w: World, st: State): (r: Outcome<Checked>)
    ensures Reads(w, r.w)
    ensures NeedsAgent(s) ==> AgentChecked(setup, w, st, r)
    ensures !NeedsAgent(s) && r.reply.Good? ==> r.reply.value.st == st
    ensures s == OwnerAndToken ==> r.reply == Good(Checked(st.token, st))
    ensures Tells(setup, s, w, r)
  {
    hide HaveRepos, Everything, BrokerUp, ZigbeeUp, AgentConfigured, Device.State, Honest;
    hide Select, CheckAgent, CheckDevice, AgentSlugOf, Reads;
    ReadsCompose();
    if NeedsAgent(s) then CheckAgent(setup, s, w, st)
    else if s == OwnerAndToken then Outcome(w, Good(Checked(st.token, st)))
    else
      var (w, done) :- CheckDevice(setup, s, w);
      Outcome(w, Good(Checked(done, st)))
  }

  /** The add-ons whose options a step may write. */
  function Touched(setup: Setup, s: StepName, store: Store, st: State): set<string> {
    match s
    case ConfigureZigbee => ZigbeeSlugs(setup, store)
    case ConfigureAgent =>
      if st.agentSlug != "" then {st.agentSlug}
      else (match AgentSlugOf(setup, store) case None => {} case Some(slug) => {slug})
    case _ => {}
  }

  /** What a step may do to the device, however it goes. */
  ghost predicate StepFrame(setup: Setup, s: StepName, st: State, w: World, w': World) {
    && AtMostOnce(w, w')
    && match s
       case OwnerAndToken => w'.device in {w.device, w.device.(owner := true)} && Without(Mutation, w, w')
       case AddonRepos => Gains(w.device, w'.device) && forall s :: w'.device.State(s) == w.device.State(s)
       case _ => Works(w, w', Touched(setup, s, w.device.store, st))
  }

  /** What the run holds of the agent's slug after the action, and of the token. */
  ghost predicate SlugHeld(setup: Setup, store: Store, st: State, r: Reply<State>) {
    r.Good? ==>
      && r.value.token == st.token
      && (r.value.agentSlug == st.agentSlug
          || (st.agentSlug == "" && AgentSlugOf(setup, store) == Some(r.value.agentSlug)))
  }

  function ActConfigure(setup: Setup, w: World, st: State): (r: Outcome<State>) {
    var (w, st) :- ResolveAgent(setup, w, st);
    var (w, _) :- ConfigureAndReload(setup, w, st.agentSlug);
    Outcome(w, Good(st))
  }

  /** Only the agent's options are written, under the slug that the run holds from then
      on; if that succeeds and was not only said to, they are the ones asked for, and
      an agent known to run was restarted last. */
  lemma AgentActs(setup: Setup, w: World, st: State)
    ensures var r := ActConfigure(setup, w, st);
      && Works(w, r.w, Touched(setup, ConfigureAgent, w.device.store, st))
      && SlugHeld(setup, w.device.store, st, r.reply)
      && (r.reply.Good? && Sincere(w) ==> AgentConfigured(setup, r.w.device, r.reply.value.agentSlug))
      && (r.reply.Good? && Honest(w, r.w) ==>
            var slug := r.reply.value.agentSlug;
            w.device.State(slug).installed && w.device.State(slug).started ==> LastCall(r.w, Restart(slug)))
  {
    hide Select, ResolveAgent, ConfigureAndReload, AgentSlugOf, Works, Reads, AgentConfigured, Honest, LastCall;
    hide Sincere, Device.State;
    var resolved := ResolveAgent(setup, w, st);
    ReadIsWork(w, resolved.w, Touched(setup, ConfigureAgent, w.device.store, st));
    if resolved.reply.Good? {
      var slug := resolved.reply.value.agentSlug;
      var written := ConfigureAndReload(setup, resolved.w, slug);
      WorkAfterRead(w, resolved.w, written.w, {slug});
      HonestLater(w, resolved.w, written.w, {slug});
    }
  }

  lemma HonestLater(a: World, b: World, c: World, slugs: set<string>)
    requires Reads(a, b) && Works(b, c, slugs)
    ensures Honest(a, c) ==> Honest(b, c)
  {
    hide Select, Sincere, Number;
    NeverFewer(a, b, c);
  }

  lemma ReadIsWork(w: World, w': World, slugs: set<string>)
    requires Reads(w, w')
    ensures Works(w, w', slugs) && w'.device == w.device && (Sincere(w) ==> Sincere(w'))
  {
    hide AtMostOnce, Sincere;
  }

  lemma WorkAfterRead(a: World, b: World, c: World, slugs: set<string>)
    requires Reads(a, b) && Works(b, c, slugs)
    ensures Works(a, c, slugs)
  {
    hide Select, Sincere;
    WorksAfterReads();
  }

  lemma WorksAfterReads()
    ensures forall a, b, c, slugs :: Reads(a, b) && Works(b, c, slugs) ==> Works(a, c, slugs)
  {
    hide AtMostOnce, Gains;
    AtMostOnceTransitive();
  }

  lemma ReadsWork()
    ensures forall w, w', slugs :: Reads(w, w') ==> Works(w, w', slugs)
  {
  }

  /** The actions that need of the run's state no more than the agent's slug. */
  function ActDevice(setup: Setup, s: StepName, w: World, st: State): (r: Outcome<()>)
    requires s in {AddonRepos, InstallAddons, StartBroker, ConfigureZigbee, StartAgent}
    ensures StepFrame(setup, s, st, w, r.w)
    ensures r.reply.Good? && s == StartBroker ==> !BrokerUnresolved(setup, w.device.store)
    ensures r.reply.Good? && Sincere(w) ==> Reached(setup, s, r.w.device, st)
  {
    hide AtMostOnce, Select, AddRepos, InstallAll, ActBroker, ActZigbee, Send, ZigbeeSlugs, Gains;
    hide Device.State, BrokerUnresolved, Sincere, HaveRepos, AddonPresent, BrokerUp, ZigbeeUp;
    SendWorks(w, Start(st.agentSlug));
    match s
    case AddonRepos => AddRepos(setup, w)
    case InstallAddons => InstallAll(setup, w, setup.manifest.addons)
    case StartBroker => ActBroker(setup, w)
    case ConfigureZigbee => ActZigbee(setup, w)
    case _ => Send(w, Start(st.agentSlug))
  }

  /** An action stays within its step's frame, however it goes; if it succeeds and
      nothing was only said to be done, it reaches its step's goal. */
  ghost predicate Acted(setup: Setup, s: StepName, w: World, st: State, r: Outcome<State>) {
    && StepFrame(setup, s, st, w, r.w)
    && (s != OwnerAndToken ==> SlugHeld(setup, w.device.store, st, r.reply))
    && (r.reply.Good? && !NeedsAgent(s) ==> r.reply.value.agentSlug == st.agentSlug)
    && (s in {Connect, AwaitProvision} ==> Reads(w, r.w))
    && (r.reply.Good? && s == StartBroker ==> !BrokerUnresolved(setup, w.device.store))
    && (r.reply.Good? && Sincere(w) ==> Reached(setup, s, r.w.device, r.reply.value))
  }

  function ActConnect(setup: Setup, w: World, st: State): (r: Outcome<State>)
    ensures Acted(setup, Connect, w, st, r)
  {
    hide Select, ProbeCore, AgentSlugOf, Works, Reads, Sincere;
    ReadsCompose();
    var probe := ProbeCore(w);
    ReadIsWork(w, probe.w, {});
    var (v, up) :- probe;
    Outcome(v, if up then Good(st) else Err(false))
  }

  function ActOwner(setup: Setup, w: World, st: State): (r: Outcome<State>)
    ensures Acted(setup, OwnerAndToken, w, st, r)
  {
    hide AtMostOnce, Select, Authenticate, AgentSlugOf, Sincere;
    var (w, _) :- Authenticate(w);
    Outcome(w, Good(st.(token := true)))
  }

  function ActAwait(setup: Setup, w: World, st: State): (r: Outcome<State>)
    ensures Acted(setup, AwaitProvision, w, st, r)
  {
    hide Select, ReadClaim, AgentSlugOf, Works, Reads, Sincere;
    ReadsCompose();
    var read := ReadClaim(w);
    ReadIsWork(w, read.w, {});
    var (v, seen) :- read;
    Outcome(v, if seen then Good(st.(provisioned := true)) else Err(false))
  }

  function ActAgent(setup: Setup, w: World, st: State): (r: Outcome<State>)
    ensures Acted(setup, ConfigureAgent, w, st, r)
  {
    hide Select, ActConfigure, AgentSlugOf, Touched, Works, Sincere, AgentConfigured, Honest, LastCall, Device.State;
    var r := ActConfigure(setup, w, st);
    AgentActs(setup, w, st);
    WorkIsOnce(w, r.w, Touched(setup, ConfigureAgent, w.device.store, st));
    r
  }

  lemma WorkIsOnce(w: World, w': World, slugs: set<string>)
    requires Works(w, w', slugs)
    ensures AtMostOnce(w, w')
  {
  }

  function ActPlain(setup: Setup, s: StepName, w: World, st: State): (r: Outcome<State>)
    requires s in {AddonRepos, InstallAddons, StartBroker, ConfigureZigbee, StartAgent}
    ensures Acted(setup, s, w, st, r)
  {
    hide Select, ActDevice, AgentSlugOf, StepFrame, BrokerUnresolved, Sincere, Reached, Reads;
    var (w, _) :- ActDevice(setup, s, w, st);
    Outcome(w, Good(st))
  }

  function Act(setup: Setup, s: StepName, w: World, st: State): (r: Outcome<State>)
    ensures Acted(setup, s, w, st, r)
  {
    hide Acted, ActConnect, ActOwner, ActAgent, ActAwait, ActPlain;
    match s
    case Connect => ActConnect(setup, w, st)
    case OwnerAndToken => ActOwner(setup, w, st)
    case ConfigureAgent => ActAgent(setup, w, st)
    case AwaitProvision => ActAwait(setup, w, st)
    case _ => ActPlain(setup, s, w, st)
  }

  lemma WorksOnce()
    ensures forall w, w', slugs :: Works(w, w', slugs) ==> AtMostOnce(w, w')
  {
  }

  function Verify(setup: Setup, s: StepName, w: World, st: State): (r: Outcome<()>)
    ensures Reads(w, r.w)
    ensures r.reply.Good? ==>
              Reached(setup, s, w.device, st) || (s == StartBroker && BrokerUnresolved(setup, w.device.store))
  {
    hide HaveRepos, BrokerUp, BrokerUnresolved, ZigbeeUp, AgentConfigured, AddonPresent, Device.State, Number;
    hide AtMostOnce, Select, ProbeCore, VerifyOwner, CheckRepos, AllInstalled, VerifyBroker, VerifyZigbee;
    hide OptionsMatch, IsStarted;
    AtMostOnceReflexive();
    match s
    case Connect => var (w, up) :- ProbeCore(w); Outcome(w, if up then Good(()) else Err(false))
    case OwnerAndToken => if !st.token then Outcome(w, Err(false)) else VerifyOwner(w)
    case AddonRepos => var (w, have) :- CheckRepos(setup, w); Outcome(w, if have then Good(()) else Err(false))
    case InstallAddons =>
      var (w, all) :- AllInstalled(setup, w, setup.manifest.addons);
      Outcome(w, if all then Good(()) else Err(false))
    case StartBroker => VerifyBroker(setup, w)
    case ConfigureZigbee => VerifyZigbee(setup, w)
    case ConfigureAgent =>
      var (w, ok) :- OptionsMatch(setup, w, st.agentSlug);
      Outcome(w, if ok then Good(()) else Err(false))
    case StartAgent =>
      var (w, up) :- IsStarted(w, st.agentSlug);
      Outcome(w, if up then Good(()) else Err(false))
    case AwaitProvision => Outcome(w, if st.provisioned then Good(()) else Err(false))
  }

  /** The engine's contract for a step: done if the check says so, otherwise act
      and verify. */
  function RunStep(setup: Setup, s: StepName, w: World, st: State): (r: Outcome<State>) {
    var (w, c) :- Check(setup, s, w, st);
    if c.done then Outcome(w, Good(c.st)) else
    var (w, st) :- Act(setup, s, w, c.st);
    var (w, _) :- Verify(setup, s, w, st);
    Outcome(w, Good(st))
  }

  /** Each step in order, up to the first that fails. */
  function Run(setup: Setup, steps: seq<StepName>, w: World, st: State): (r: Outcome<State>) {
    if steps == [] then Outcome(w, Good(st)) else
    var (w, st) :- RunStep(setup, steps[0], w, st);
    Run(setup, steps[1..], w, st)
  }
}
