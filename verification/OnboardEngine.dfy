/** The engine that runs the steps over the shared state (internal/onboard/engine.go),
    and the loops inside the steps (internal/onboard/steps.go). */
module OnboardEngine {
  import opened Common
  import opened Fleet
  import opened World
  import opened SupervisorSpec
  import opened SupervisorClient
  import opened OnboardSpec
  import opened ZigbeeOptions

  /** The repositories a release needs, each once. */
  method RequiredRepos(m: Manifest) returns (repos: seq<string>)
    ensures repos == RequiredRepositories(m)
  {
    hide Dedupe;
    repos := [m.addonRepository];
    for i := 0 to |m.addons|
      invariant repos + CommunityRepos(m.addons[i..]) == [m.addonRepository] + CommunityRepos(m.addons)
    {
      assert m.addons[i..][1..] == m.addons[i + 1..];
      if !m.addons[i].core && m.addons[i].repository != "" {
        repos := repos + [m.addons[i].repository];
      }
    }
    assert repos == repos + CommunityRepos(m.addons[|m.addons|..]);
    repos := DropRepeats(repos);
  }

  method DropRepeats(s: seq<string>) returns (out: seq<string>)
    ensures out == Dedupe(s)
  {
    var seen: set<string> := {};
    out := [];
    for i := 0 to |s|
      invariant out == Dedupe(s[..i])
      invariant forall x :: x in seen <==> x in out
    {
      assert s[..i + 1][..i] == s[..i];
      if s[i] !in seen {
        seen := seen + {s[i]};
        out := out + [s[i]];
      }
    }
    assert s[..|s|] == s;
  }

  /** How a run or a step ended, without its value. */
  function Ended<T>(r: Reply<T>): Reply<()> {
    match r
    case Good(_) => Good(())
    case Err(soft) => Err(soft)
    case Crash => Crash
  }

  class Engine {
    const setup: Setup
    const client: Client
    var st: State

    constructor (setup: Setup, client: Client)
      ensures this.setup == setup && this.client == client && st == FRESH
    {
      this.setup := setup;
      this.client := client;
      st := FRESH;
    }

    method RegisterMissing(have: seq<string>, want: seq<string>) returns (r: Reply<()>)
      modifies client
      ensures Outcome(client.w, r) == AddMissing(old(client.w), have, want)
    {
      hide AddStoreRepository, RepoPresent, AtMostOnce, Select;
      for i := 0 to |want|
        invariant AddMissing(client.w, have, want[i..]) == AddMissing(old(client.w), have, want)
      {
        assert want[i..][1..] == want[i + 1..];
        if !RepoPresent(have, want[i]) {
          var _ :- client.RegisterRepository(want[i]);
        }
      }
      return Good(());
    }

    method IsInstalled(a: Addon) returns (r: Reply<bool>)
      modifies client
      ensures Outcome(client.w, r) == AddonInstalled(setup, old(client.w), a)
    {
      hide ResolveAddonSlug, GetAddonInfo, AtMostOnce, Select;
      var slug := LOCAL_AGENT;
      if !(IsAgent(a) && setup.dev) {
        var found :- client.Resolve(a);
        if found.None? {
          return Good(false);
        }
        slug := found.value;
      }
      var info :- client.Info(slug);
      return Good(info.installed);
    }

    method AreInstalled(addons: seq<Addon>) returns (r: Reply<bool>)
      modifies client
      ensures Outcome(client.w, r) == AllInstalled(setup, old(client.w), addons)
    {
      hide AddonInstalled, AtMostOnce, Select, AddonPresent;
      for i := 0 to |addons|
        invariant AllInstalled(setup, client.w, addons[i..]) == AllInstalled(setup, old(client.w), addons)
      {
        assert addons[i..][1..] == addons[i + 1..];
        r := IsInstalled(addons[i]);
        if r != Good(true) {
          return;
        }
      }
      return Good(true);
    }

    method InstallFromStore(a: Addon) returns (r: Reply<()>)
      modifies client
      ensures Outcome(client.w, r) == InstallStoreAddon(old(client.w), a)
    {
      hide ResolveAddonSlug, GetAddonInfo, InstallAddon, AtMostOnce, Select;
      var found :- client.Resolve(a);
      if found.None? {
        return Err(false);
      }
      var info :- client.Info(found.value);
      if info.installed {
        return Good(());
      }
      r := client.InstallLatest(found.value);
    }

    method InstallMissing(addons: seq<Addon>) returns (r: Reply<()>)
      modifies client
      ensures Outcome(client.w, r) == InstallAll(setup, old(client.w), addons)
    {
      hide InstallStoreAddon, GetAddonInfo, AtMostOnce, Select;
      for i := 0 to |addons|
        invariant InstallAll(setup, client.w, addons[i..]) == InstallAll(setup, old(client.w), addons)
      {
        assert addons[i..][1..] == addons[i + 1..];
        if IsAgent(addons[i]) && setup.dev {
          var info :- client.Info(LOCAL_AGENT);
          if !info.installed {
            return Err(false);
          }
        } else {
          var _ :- InstallFromStore(addons[i]);
        }
      }
      return Good(());
    }

    // ---- the other steps' own work ---------------------------------------------

    /** How a call that leaves its result in the run's state ended. */
    ghost predicate Leaves(o: Outcome<State>, r: Reply<()>)
      reads this, client
    {
      client.w == o.w && r == Ended(o.reply) && (o.reply.Good? ==> st == o.reply.value)
    }

    method ResolveAgentSlug() returns (r: Reply<()>)
      modifies this`st, client
      ensures Leaves(ResolveAgent(setup, old(client.w), old(st)), r)
    {
      hide ResolveAddonSlug, AtMostOnce, Select;
      if st.agentSlug != "" {
        return Good(());
      }
      if setup.dev {
        st := st.(agentSlug := LOCAL_AGENT);
        return Good(());
      }
      var agent := setup.manifest.Agent();
      if agent.None? {
        return Err(false);
      }
      var found :- client.Resolve(agent.value);
      if found.None? {
        return Err(false);
      }
      st := st.(agentSlug := found.value);
      return Good(());
    }

    method AddRepositories() returns (r: Reply<()>)
      modifies client
      ensures Outcome(client.w, r) == AddRepos(setup, old(client.w))
    {
      hide AddMissing, AtMostOnce, Select, Send;
      var _ :- client.Call(GetRepositories);
      var want := RequiredRepos(setup.manifest);
      r := RegisterMissing(client.w.device.store.repos, want);
    }

    /** The slug of the manifest's broker or coordinator add-on, if it resolves. */
    method ResolveByMatch(m: string, absent: Reply<Option<string>>) returns (r: Reply<Option<string>>)
      modifies client
      ensures Outcome(client.w, r) ==
              match setup.manifest.Find(m)
              case None => Outcome(old(client.w), absent)
              case Some(a) => ResolveAddonSlug(old(client.w), a)
    {
      var addon := setup.manifest.Find(m);
      if addon.None? {
        return absent;
      }
      r := client.Resolve(addon.value);
    }

    method StartTheBroker() returns (r: Reply<()>)
      modifies client
      ensures Outcome(client.w, r) == ActBroker(setup, old(client.w))
    {
      hide ResolveAddonSlug, AtMostOnce, Select, Send;
      var slug :- ResolveByMatch(BROKER_MATCH, Good(None));
      if slug.None? {
        return if setup.manifest.Find(BROKER_MATCH).None? then Good(()) else Err(false);
      }
      r := client.Call(Start(slug.value));
    }

    /** Everything the add-on has is sent back with only the radio settings changed;
        a running add-on is restarted so that it loads them. */
    method PointZigbeeAtCoordinator() returns (r: Reply<()>)
      modifies client
      ensures Outcome(client.w, r) == ActZigbee(setup, old(client.w))
    {
      hide ResolveAddonSlug, GetAddonInfo, AtMostOnce, Select, Send, Merged;
      var slug :- ResolveByMatch(ZIGBEE_MATCH, Err(false));
      if slug.None? {
        return Err(false);
      }
      var info :- client.Info(slug.value);
      var options := MergedZigbeeOptions(info.options, setup.zigbee);
      var _ :- client.Call(SetOptions(slug.value, options));
      r := client.Call(if info.started then Restart(slug.value) else Start(slug.value));
    }

    method WriteAgentOptions() returns (r: Reply<()>)
      modifies client
      ensures Outcome(client.w, r) == ConfigureAndReload(setup, old(client.w), st.agentSlug)
    {
      hide GetAddonInfo, AtMostOnce, Select, Send;
      var _ :- client.Call(SetOptions(st.agentSlug, setup.agentOptions));
      var info :- client.Info(st.agentSlug);
      if info.started {
        r := client.Call(Restart(st.agentSlug));
      } else {
        r := Good(());
      }
    }

    method ConfigureTheAgent() returns (r: Reply<()>)
      modifies this`st, client
      ensures Leaves(ActConfigure(setup, old(client.w), old(st)), r)
    {
      hide ResolveAgent, ConfigureAndReload, AtMostOnce, Select;
      var _ :- ResolveAgentSlug();
      var _ :- WriteAgentOptions();
      r := Good(());
    }

    method TryCall(op: Op) returns (r: Reply<()>)
      requires op == Token || op == Wizard
      modifies client
      ensures Outcome(client.w, r) == OnboardSpec.Attempt(old(client.w), op)
    {
      var reply := client.Call(op);
      r := if reply.Crash? then Crash else Good(());
    }

    /** Logs in, or creates the owner on a device that has none. */
    method SignIn() returns (r: Reply<()>)
      modifies client
      ensures Outcome(client.w, r) == Authenticate(old(client.w))
    {
      hide AtMostOnce, Select, Send, OnboardSpec.Attempt;
      var _ :- client.Call(GetOnboarding);
      var _ :- client.Call(if client.w.device.owner then Login else CreateOwner);
      var _ :- client.Call(Token);
      var _ :- TryCall(Token);
      var _ :- TryCall(Wizard);
      r := TryCall(Wizard);
    }

    // ---- the steps' checks -----------------------------------------------------------

    method ReposPresent() returns (r: Reply<bool>)
      modifies client
      ensures Outcome(client.w, r) == CheckRepos(setup, old(client.w))
    {
      hide RepoPresent, RequiredRepositories, AtMostOnce, Select, Send;
      var _ :- client.Call(GetRepositories);
      var have := client.w.device.store.repos;
      var want := RequiredRepos(setup.manifest);
      for i := 0 to |want|
        invariant forall k :: 0 <= k < i ==> RepoPresent(have, want[k])
      {
        if !RepoPresent(have, want[i]) {
          return Good(false);
        }
      }
      return Good(true);
    }

    method HasStarted(slug: string) returns (r: Reply<bool>)
      modifies client
      ensures Outcome(client.w, r) == IsStarted(old(client.w), slug)
    {
      var info :- client.Info(slug);
      return Good(info.started);
    }

    method BrokerRuns() returns (r: Reply<bool>)
      modifies client
      ensures Outcome(client.w, r) == CheckBroker(setup, old(client.w))
    {
      hide ResolveAddonSlug, IsStarted, AtMostOnce, Select;
      var slug :- ResolveByMatch(BROKER_MATCH, Good(None));
      if slug.None? {
        return Good(setup.manifest.Find(BROKER_MATCH).None?);
      }
      r := HasStarted(slug.value);
    }

    method CoordinatorSet() returns (r: Reply<bool>)
      modifies client
      ensures Outcome(client.w, r) == CheckZigbee(setup, old(client.w))
    {
      hide ResolveAddonSlug, GetAddonInfo, SerialSatisfied, AtMostOnce, Select, TrimSpace;
      if !setup.zigbee.Configured() {
        return Good(true);
      }
      var slug :- ResolveByMatch(ZIGBEE_MATCH, Err(false));
      if slug.None? {
        return Good(false);
      }
      var info :- client.Info(slug.value);
      return Good(SerialSatisfied(info.options, setup.zigbee) && info.started);
    }

    method OptionsAsAsked() returns (r: Reply<bool>)
      modifies client
      ensures Outcome(client.w, r) == OptionsMatch(setup, old(client.w), st.agentSlug)
    {
      hide GetAddonInfo, OptionsSatisfied, AtMostOnce, Select;
      var info :- client.Info(st.agentSlug);
      return Good(OptionsSatisfied(info.options, setup.agentOptions));
    }

    method CoreAnswers() returns (r: Reply<bool>)
      modifies client
      ensures Outcome(client.w, r) == ProbeCore(old(client.w))
    {
      var reply := client.Call(Probe);
      r := if reply.Crash? then Crash else Good(reply.Good?);
    }

    method ClaimSeen() returns (r: Reply<bool>)
      modifies client
      ensures Outcome(client.w, r) == ReadClaim(old(client.w))
    {
      var seen := client.w.fates != [] && client.w.fates[0] == Done;
      var _ :- client.Call(GetClaim);
      return Good(seen);
    }

    /** How a check ended, and what it leaves in the run's state. */
    ghost predicate ChecksAs(o: Outcome<Checked>, r: Reply<bool>)
      reads this, client
    {
      client.w == o.w && match r
        case Good(done) => o.reply == Good(Checked(done, st))
        case Err(soft) => o.reply == Err(soft)
        case Crash => o.reply == Crash
    }

    /** The checks that resolve the agent's slug first. */
    method CheckAgentOn(s: StepName) returns (r: Reply<bool>)
      requires NeedsAgent(s)
      modifies this`st, client
      ensures ChecksAs(CheckAgent(setup, s, old(client.w), old(st)), r)
    {
      hide ResolveAgent, AllInstalled, OptionsMatch, IsStarted, ReadClaim, AtMostOnce, Select;
      var _ :- ResolveAgentSlug();
      match s {
        case InstallAddons => r := AreInstalled(setup.manifest.addons);
        case ConfigureAgent => r := OptionsAsAsked();
        case StartAgent => r := HasStarted(st.agentSlug);
        case AwaitProvision =>
          var seen :- ClaimSeen();
          st := st.(provisioned := st.provisioned || seen);
          r := Good(seen);
      }
    }

    method CheckOn(s: StepName) returns (r: Reply<bool>)
      modifies this`st, client
      ensures ChecksAs(Check(setup, s, old(client.w), old(st)), r)
    {
      hide CheckAgent, ProbeCore, CheckRepos, CheckBroker, CheckZigbee, AtMostOnce, Select;
      match s {
        case Connect => r := CoreAnswers();
        case OwnerAndToken => r := Good(st.token);
        case AddonRepos => r := ReposPresent();
        case StartBroker => r := BrokerRuns();
        case ConfigureZigbee => r := CoordinatorSet();
        case _ => r := CheckAgentOn(s);
      }
    }

    // ---- the steps' verifications ------------------------------------------------------

    method VerifyBrokerRuns() returns (r: Reply<()>)
      modifies client
      ensures Outcome(client.w, r) == VerifyBroker(setup, old(client.w))
    {
      hide ResolveAddonSlug, IsStarted, AtMostOnce, Select;
      var slug :- ResolveByMatch(BROKER_MATCH, Good(None));
      if slug.None? {
        return Good(());
      }
      var started :- HasStarted(slug.value);
      return if started then Good(()) else Err(false);
    }

    method VerifyCoordinatorSet() returns (r: Reply<()>)
      modifies client
      ensures Outcome(client.w, r) == VerifyZigbee(setup, old(client.w))
    {
      hide ResolveAddonSlug, GetAddonInfo, IsStarted, SerialSatisfied, AtMostOnce, Select, TrimSpace;
      if !setup.zigbee.Configured() {
        return Good(());
      }
      var slug :- ResolveByMatch(ZIGBEE_MATCH, Err(false));
      if slug.None? {
        return Err(false);
      }
      var info :- client.Info(slug.value);
      if !SerialSatisfied(info.options, setup.zigbee) {
        return Err(false);
      }
      var started :- HasStarted(slug.value);
      return if started then Good(()) else Err(false);
    }

    method VerifyOn(s: StepName) returns (r: Reply<()>)
      modifies client
      ensures Outcome(client.w, r) == Verify(setup, s, old(client.w), st)
    {
      hide ProbeCore, CheckRepos, AllInstalled, VerifyBroker, VerifyZigbee, OptionsMatch, IsStarted, Send;
      hide AtMostOnce, Select;
      var holds: Reply<bool> := Good(true);
      match s {
        case Connect => holds := CoreAnswers();
        case OwnerAndToken =>
          if st.token {
            var _ :- client.Call(GetOnboarding);
          }
          holds := Good(st.token && client.w.device.owner);
        case AddonRepos => holds := ReposPresent();
        case InstallAddons => holds := AreInstalled(setup.manifest.addons);
        case StartBroker =>
          r := VerifyBrokerRuns();
          return;
        case ConfigureZigbee =>
          r := VerifyCoordinatorSet();
          return;
        case ConfigureAgent => holds := OptionsAsAsked();
        case StartAgent => holds := HasStarted(st.agentSlug);
        case AwaitProvision => holds := Good(st.provisioned);
      }
      r := if holds == Good(false) then Err(false) else Ended(holds);
    }

    // ---- check, act and verify ----------------------------------------------------

    /** The action of a step that needs no more of the run's state than the slug. */
    method ActOnDevice(s: StepName) returns (r: Reply<()>)
      requires s in {AddonRepos, InstallAddons, StartBroker, ConfigureZigbee, StartAgent}
      modifies client
      ensures Outcome(client.w, r) == ActDevice(setup, s, old(client.w), old(st))
    {
      hide AddRepos, InstallAll, ActBroker, ActZigbee, Send, AtMostOnce, Select;
      if s == AddonRepos {
        r := AddRepositories();
      } else if s == InstallAddons {
        r := InstallMissing(setup.manifest.addons);
      } else if s == StartBroker {
        r := StartTheBroker();
      } else if s == ConfigureZigbee {
        r := PointZigbeeAtCoordinator();
      } else {
        r := client.Call(Start(st.agentSlug));
      }
    }

    method ActOn(s: StepName) returns (r: Reply<()>)
      modifies this`st, client
      ensures Leaves(Act(setup, s, old(client.w), old(st)), r)
    {
      hide ProbeCore, Authenticate, ActDevice, ActConfigure, ReadClaim, AtMostOnce, Select, Send;
      hide Acted, Reads, Works, Touched, Reached, AgentConfigured, Honest, LastCall, Device.State, Gains;
      if s == Connect {
        var up := CoreAnswers();
        r := if up == Good(false) then Err(false) else Ended(up);
      } else if s == OwnerAndToken {
        var _ :- SignIn();
        st := st.(token := true);
        r := Good(());
      } else if s == ConfigureAgent {
        r := ConfigureTheAgent();
      } else if s == AwaitProvision {
        var seen := ClaimSeen();
        if seen == Good(true) {
          st := st.(provisioned := true);
        }
        r := if seen == Good(false) then Err(false) else Ended(seen);
      } else {
        var _ :- ActOnDevice(s);
        r := Good(());
      }
    }

    /** The engine's contract for a step: skipped if its check says so, otherwise
        acted on and verified. */
    method Perform(s: StepName) returns (r: Reply<()>)
      modifies this`st, client
      ensures Leaves(RunStep(setup, s, old(client.w), old(st)), r)
    {
      hide Check, Act, Verify, Select, Tells, Reads, AgentChecked, Acted, Reached, BrokerUnresolved, Device.State;
      var done :- CheckOn(s);
      if done {
        return Good(());
      }
      var _ :- ActOn(s);
      var _ :- VerifyOn(s);
      r := Good(());
    }

    /** Each step in order, stopping at the first failure. */
    method RunSteps(steps: seq<StepName>) returns (r: Reply<()>)
      modifies this`st, client
      ensures Leaves(Run(setup, steps, old(client.w), old(st)), r)
    {
      hide RunStep, Select;
      for i := 0 to |steps|
        invariant Run(setup, steps[i..], client.w, st) == Run(setup, steps, old(client.w), old(st))
      {
        assert steps[i..][1..] == steps[i + 1..];
        var _ :- Perform(steps[i]);
      }
      return Good(());
    }
  }
}
