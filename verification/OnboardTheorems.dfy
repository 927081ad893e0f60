/** What onboarding reaches however often it is cut and re-run: every goal holds
    together after a run that succeeds, nothing is installed twice, and a device
    that is done is left alone. */
module OnboardTheorems {
  import opened Common
  import opened Fleet
  import opened World
  import opened SupervisorSpec
  import opened ZigbeeOptions
  import opened OnboardSpec

  /** The goal of a step, as a fact about the device. */
  ghost predicate Goal(setup: Setup, s: StepName, d: Device) {
    match s
    case OwnerAndToken => d.owner
    case AddonRepos => HaveRepos(setup, d)
    case InstallAddons => Everything(setup, d)
    case StartBroker => BrokerUp(setup, d)
    case ConfigureZigbee => ZigbeeUp(setup, d)
    case ConfigureAgent =>
      var slug := AgentSlugOf(setup, d.store); slug.Some? && AgentConfigured(setup, d, slug.value)
    case StartAgent =>
      var slug := AgentSlugOf(setup, d.store); slug.Some? && d.State(slug.value).started
    case _ => true
  }

  /** The slug that the agent is sure to have, if there is one. */
  function ExactAgentSlug(setup: Setup): Option<string> {
    if setup.dev then Some(LOCAL_AGENT)
    else match setup.manifest.Agent()
      case Some(a) => if a.slug != "" then Some(a.slug) else None
      case None => None
  }

  /** Zigbee2MQTT and the agent are different add-ons in the manifest. */
  predicate Separate(setup: Setup) {
    match setup.manifest.Find(ZIGBEE_MATCH)
    case None => true
    case Some(z) =>
      match ExactAgentSlug(setup)
      case Some(exact) => !z.Resolves(exact)
      case None => z.slug != "" && setup.manifest.Agent().Some? ==> !setup.manifest.Agent().value.Resolves(z.slug)
  }

  lemma TailCharacter(a: Addon, s: string)
    requires a.slug == "" && a.Resolves(s) && |a.matchName| >= 2
    ensures |s| >= 2 && s[|s| - 2] == a.matchName[|a.matchName| - 2]
  {
    var tail := "_" + a.matchName;
    if s != a.matchName {
      assert s[|s| - |tail|..][|tail| - 2] == tail[|tail| - 2];
    }
  }

  /** No slug is both Zigbee2MQTT's and the agent's by their match values. */
  lemma TailsDiffer(z: Addon, a: Addon, s: string)
    requires z.matchName == ZIGBEE_MATCH && a.matchName == AGENT_MATCH && z.slug == "" && a.slug == ""
    ensures !(z.Resolves(s) && a.Resolves(s))
  {
    hide Addon.Resolves;
    assert ZIGBEE_MATCH[|ZIGBEE_MATCH| - 2] == 't' && AGENT_MATCH[|AGENT_MATCH| - 2] == 'n';
    if z.Resolves(s) { TailCharacter(z, s); }
    if a.Resolves(s) { TailCharacter(a, s); }
  }

  /** Separate is exactly the condition under which no store gives both the same slug. */
  lemma SeparateExactly(setup: Setup)
    ensures Separate(setup) <==>
            forall store :: var z := setup.manifest.Find(ZIGBEE_MATCH);
              z.Some? && Resolved(store, z.value).Some? ==> Resolved(store, z.value) != AgentSlugOf(setup, store)
  {
    hide Addon.Resolves, HasSuffix;
    var z := setup.manifest.Find(ZIGBEE_MATCH);
    if z.Some? {
      if Separate(setup) {
        forall store | Resolved(store, z.value).Some? ensures Resolved(store, z.value) != AgentSlugOf(setup, store) {
          if ExactAgentSlug(setup).None? && setup.manifest.Agent().Some? && z.value.slug == "" {
            TailsDiffer(z.value, setup.manifest.Agent().value, Resolved(store, z.value).value);
          }
          ExactSlug(z.value);
        }
      } else {
        var s := if ExactAgentSlug(setup).Some? then ExactAgentSlug(setup).value else z.value.slug;
        var store := Store([s], [], map[]);
        ExactSlug(z.value);
        assert Resolved(store, z.value) == Some(s) == AgentSlugOf(setup, store);
      }
    }
  }

  lemma ExactSlug(a: Addon)
    ensures a.slug != "" ==> forall s :: a.Resolves(s) <==> s == a.slug
  {
  }

  /** What a run holds of the agent's slug before step i: nothing until the store
      is complete, and then the one that the store gives. A token means an owner. */
  predicate StateKnown(setup: Setup, i: nat, d: Device, st: State) {
    && (st.agentSlug == "" || (i > 3 && AgentSlugOf(setup, d.store) == Some(st.agentSlug)))
    && (st.token ==> d.owner)
  }

  lemma FrameBetweenReads(setup: Setup, s: StepName, st: State, a: World, b: World, c: World, d: World)
    requires Reads(a, b) && StepFrame(setup, s, st, b, c) && Reads(c, d)
    ensures StepFrame(setup, s, st, a, d)
  {
    hide AtMostOnce, Select, Touched, Gains, Device.State;
    AtMostOnceTransitive();
  }

  lemma StepFrames(setup: Setup, s: StepName, w: World, st: State)
    ensures StepFrame(setup, s, st, w, RunStep(setup, s, w, st).w)
  {
    hide AtMostOnce, Select, Check, Act, Verify, Gains, Device.State, AgentSlugOf, ZigbeeSlugs;
    AtMostOnceReflexive();
    var check := Check(setup, s, w, st);
    ReadsFrame(setup, s, st, w, check.w);
    if check.reply.Good? && !check.reply.value.done {
      var act := Act(setup, s, check.w, check.reply.value.st);
      assert Touched(setup, s, check.w.device.store, check.reply.value.st) == Touched(setup, s, w.device.store, st);
      FrameBetweenReads(setup, s, st, w, check.w, act.w, act.w);
      if act.reply.Good? {
        FrameBetweenReads(setup, s, st, w, check.w, act.w, Verify(setup, s, act.w, act.reply.value).w);
      }
    }
  }

  lemma ReadsFrame(setup: Setup, s: StepName, st: State, w: World, w': World)
    requires Reads(w, w')
    ensures StepFrame(setup, s, st, w, w')
  {
  }

  lemma OwnerStays(w: World, w': World)
    requires AtMostOnce(w, w')
    ensures w.device.owner ==> w'.device.owner
  {
  }

  /** A step that ends well has reached its goal, whatever its calls did. */
  lemma StepReaches(setup: Setup, i: nat, w: World, st: State)
    requires i < |STEPS| && StateKnown(setup, i, w.device, st)
    ensures var r := RunStep(setup, STEPS[i], w, st);
      r.reply.Good? ==> Goal(setup, STEPS[i], r.w.device) && StateKnown(setup, i + 1, r.w.device, r.reply.value)
  {
    hide AtMostOnce, Select, Check, Act, Verify, Gains, Device.State, AgentSlugOf, ZigbeeSlugs, BrokerUnresolved;
    hide HaveRepos, Everything, BrokerUp, ZigbeeUp, AgentConfigured, Number;
    var s := STEPS[i];
    StepFrames(setup, s, w, st);
    OwnerStays(w, RunStep(setup, s, w, st).w);
    assert NeedsAgent(s) ==> i >= 3;
    assert i > 3 ==> s != OwnerAndToken && s != AddonRepos;
    var check := Check(setup, s, w, st);
    if check.reply.Good? && !check.reply.value.done {
      var act := Act(setup, s, check.w, check.reply.value.st);
      if act.reply.Good? {
        var verify := Verify(setup, s, act.w, act.reply.value);
      }
    }
  }

  /** Add-on work keeps a goal unless it writes the options that the goal is about. */
  lemma WorksKeepGoal(setup: Setup, s: StepName, w: World, w': World, slugs: set<string>)
    requires Works(w, w', slugs) && NoAlias(w.device) && Goal(setup, s, w.device)
    requires s == ConfigureZigbee ==> ZigbeeSlugs(setup, w.device.store) !! slugs
    requires s == ConfigureAgent ==> slugs == {}
    ensures Goal(setup, s, w'.device)
  {
    hide AtMostOnce, Select, Resolved, AgentSlugOf, Device.State, Store.Register;
  }

  /** However a step goes, it keeps the goals of the steps before it. */
  lemma StepKeeps(setup: Setup, i: nat, j: nat, w: World, st: State)
    requires j < i < |STEPS| && Separate(setup) && NoAlias(w.device) && StateKnown(setup, i, w.device, st)
    requires Goal(setup, STEPS[j], w.device)
    ensures Goal(setup, STEPS[j], RunStep(setup, STEPS[i], w, st).w.device)
  {
    hide AtMostOnce, Select, Gains, Device.State, AgentSlugOf, RunStep, HaveRepos, Everything, BrokerUp;
    hide Separate, Resolved, Works;
    var s := STEPS[i];
    var w' := RunStep(setup, s, w, st).w;
    StepFrames(setup, s, w, st);
    OwnerStays(w, w') by { WorksOnce(); }
    if i > 2 {
      SeparateExactly(setup);
      WorksKeepGoal(setup, STEPS[j], w, w', Touched(setup, s, w.device.store, st));
    }
  }

  /** The goals of the first n steps hold together. */
  ghost predicate Goals(setup: Setup, n: nat, d: Device)
    requires n <= |STEPS|
  {
    forall j :: 0 <= j < n ==> Goal(setup, STEPS[j], d)
  }

  lemma AliasStays(setup: Setup, s: StepName, w: World, st: State)
    ensures RunStep(setup, s, w, st).w.device.self == w.device.self
  {
    hide Select, RunStep, Works, Gains, Touched;
    StepFrames(setup, s, w, st);
    WorksOnce();
  }

  lemma {:induction false} RunReaches(setup: Setup, i: nat, w: World, st: State)
    requires i <= |STEPS| && Separate(setup) && NoAlias(w.device) && StateKnown(setup, i, w.device, st)
    requires Goals(setup, i, w.device)
    ensures var r := Run(setup, STEPS[i..], w, st); r.reply.Good? ==> Goals(setup, |STEPS|, r.w.device)
    decreases |STEPS| - i
  {
    hide RunStep, Goal, StateKnown, Separate;
    if i < |STEPS| {
      assert STEPS[i..][0] == STEPS[i] && STEPS[i..][1..] == STEPS[i + 1..];
      var r := RunStep(setup, STEPS[i], w, st);
      if r.reply.Good? {
        StepReaches(setup, i, w, st);
        AliasStays(setup, STEPS[i], w, st);
        forall j | 0 <= j < i ensures Goal(setup, STEPS[j], r.w.device) {
          StepKeeps(setup, i, j, w, st);
        }
        RunReaches(setup, i + 1, r.w, r.reply.value);
      }
    }
  }

  // ---- runs and re-runs -----------------------------------------------------

  /** One run of the command: its inputs, and the way it goes. */
  datatype Attempt = Attempt(setup: Setup, fates: seq<Fate>)

  function RunAttempt(w: World, a: Attempt): Outcome<State> {
    Run(a.setup, STEPS, w.(fates := a.fates), FRESH)
  }

  /** What any number of runs, each cut or failed or finished, leave behind. */
  function After(w: World, runs: seq<Attempt>): World {
    if runs == [] then w else RunAttempt(After(w, runs[..|runs| - 1]), runs[|runs| - 1]).w
  }

  /** However many runs were cut before it and wherever, a run that succeeds leaves
      every goal reached, all at once. */
  lemma OnboardingResumes(w: World, runs: seq<Attempt>, last: Attempt)
    requires NoAlias(w.device) && Separate(last.setup)
    ensures var r := RunAttempt(After(w, runs), last); r.reply.Good? ==> Goals(last.setup, |STEPS|, r.w.device)
  {
    hide Run, Goal, Separate, Select;
    AttemptsOnce(w, runs);
    SameAlias(w, After(w, runs));
    assert STEPS[0..] == STEPS;
    RunReaches(last.setup, 0, After(w, runs).(fates := last.fates), FRESH);
  }

  lemma SameAlias(w: World, w': World)
    requires AtMostOnce(w, w')
    ensures w'.device.self == w.device.self
  {
  }

  lemma FramesOnce(setup: Setup, s: StepName, w: World, st: State)
    ensures AtMostOnce(w, RunStep(setup, s, w, st).w)
  {
    hide Select, RunStep, Works, Gains, Touched, AtMostOnce;
    StepFrames(setup, s, w, st);
    WorksOnce();
  }

  lemma {:induction false} RunOnce(setup: Setup, steps: seq<StepName>, w: World, st: State)
    ensures AtMostOnce(w, Run(setup, steps, w, st).w)
    decreases |steps|
  {
    hide RunStep, AtMostOnce;
    AtMostOnceReflexive();
    AtMostOnceTransitive();
    if steps != [] {
      FramesOnce(setup, steps[0], w, st);
      var r := RunStep(setup, steps[0], w, st);
      if r.reply.Good? { RunOnce(setup, steps[1..], r.w, r.reply.value); }
    }
  }

  lemma {:induction false} AttemptsOnce(w: World, runs: seq<Attempt>)
    ensures AtMostOnce(w, After(w, runs))
    decreases |runs|
  {
    hide Run, AtMostOnce, Select;
    AtMostOnceReflexive();
    AtMostOnceTransitive();
    if runs != [] {
      var v, last := After(w, runs[..|runs| - 1]), runs[|runs| - 1];
      AttemptsOnce(w, runs[..|runs| - 1]);
      FatesApart(w, v, last.fates);
      RunOnce(last.setup, STEPS, v.(fates := last.fates), FRESH);
    }
  }

  lemma FatesApart(w: World, v: World, fates: seq<Fate>)
    requires AtMostOnce(w, v)
    ensures AtMostOnce(w, v.(fates := fates))
  {
    hide Select;
    forall s ensures Accounted(s, w, v.(fates := fates), 0) {
      assert Accounted(s, w, v, 0);
    }
  }

  /** Over all runs together, wherever they were cut, an add-on is installed at most
      once, and not at all if it was there at the start, but for one more time for
      each info request that was rejected although it was installed; and the owner
      is created at most once, and not at all if there was one. */
  lemma InstalledOnce(w: World, runs: seq<Attempt>, slug: string)
    ensures var w' := After(w, runs);
      && Number(Installed(slug), w') + Number(MisreadOf(slug), w)
         <= Number(Installed(slug), w) + One(!w.device.State(slug).installed) + Number(MisreadOf(slug), w')
      && Number(OwnerMade, w') <= Number(OwnerMade, w) + One(!w.device.owner)
  {
    hide Select, After, Device.State;
    AttemptsOnce(w, runs);
    assert Accounted(slug, w, After(w, runs), 0);
  }

  // ---- quiescence -------------------------------------------------------------

  lemma AgentInstalled(setup: Setup, d: Device, slug: string)
    requires Everything(setup, d) && setup.manifest.Agent().Some? && AgentSlugOf(setup, d.store) == Some(slug)
    ensures d.State(slug).installed
  {
    assert AddonPresent(setup, d, setup.manifest.Agent().value);
  }

  lemma StepQuiet(setup: Setup, i: nat, w: World, st: State)
    requires i < |STEPS| && StateKnown(setup, i, w.device, st) && setup.manifest.Agent().Some?
    requires Goals(setup, |STEPS|, w.device)
    ensures var r := RunStep(setup, STEPS[i], w, st);
      Honest(w, r.w) ==> Without(Mutation, w, r.w) && r.w.device == w.device
  {
    hide AtMostOnce, Select, Check, Act, Verify, Gains, Device.State, AgentSlugOf, ZigbeeSlugs;
    hide BrokerUnresolved, HaveRepos, Everything, BrokerUp, ZigbeeUp, AgentConfigured, Number;
    var s := STEPS[i];
    var check := Check(setup, s, w, st);
    assert forall j :: 0 <= j < |STEPS| ==> Goal(setup, STEPS[j], w.device);
    assert Everything(setup, w.device) by { assert Goal(setup, STEPS[3], w.device); }
    if check.reply.Good? && !check.reply.value.done {
      var c := check.reply.value.st;
      var act := Act(setup, s, check.w, c);
      if Decisive(s) && Honest(w, RunStep(setup, s, w, st).w) {
        ActedLater(setup, s, w, st);
        if NeedsAgent(s) { AgentInstalled(setup, w.device, c.agentSlug); }
        assert false;
      }
    }
  }

  /** A check that was followed by an action read honestly if the whole step did. */
  lemma ActedLater(setup: Setup, s: StepName, w: World, st: State)
    ensures Honest(w, RunStep(setup, s, w, st).w) ==> Honest(w, Check(setup, s, w, st).w)
  {
    hide AtMostOnce, Select, Check, Act, Verify, Gains, Works, Touched, Number, Honest;
    AtMostOnceReflexive();
    AtMostOnceTransitive();
    WorksOnce();
    var check := Check(setup, s, w, st);
    if check.reply.Good? && !check.reply.value.done {
      var act := Act(setup, s, check.w, check.reply.value.st);
      if act.reply.Good? {
        NeverFewer(w, check.w, Verify(setup, s, act.w, act.reply.value).w);
      }
      NeverFewer(w, check.w, act.w);
    }
  }

  /** A run on a device where every goal holds already makes no repository,
      install, options, start or restart request, and changes nothing, as long as
      no info request is misread. */
  lemma {:induction false} RunQuiet(setup: Setup, i: nat, w: World, st: State)
    requires i <= |STEPS| && StateKnown(setup, i, w.device, st) && setup.manifest.Agent().Some?
    requires Goals(setup, |STEPS|, w.device)
    ensures var r := Run(setup, STEPS[i..], w, st);
      Honest(w, r.w) ==> Without(Mutation, w, r.w) && r.w.device == w.device
    decreases |STEPS| - i
  {
    hide RunStep, Goal, StateKnown, Select, Number, AtMostOnce, Honest;
    if i < |STEPS| {
      assert STEPS[i..][0] == STEPS[i] && STEPS[i..][1..] == STEPS[i + 1..];
      var r := RunStep(setup, STEPS[i], w, st);
      FramesOnce(setup, STEPS[i], w, st);
      if r.reply.Good? {
        RunOnce(setup, STEPS[i + 1..], r.w, r.reply.value);
        NeverFewer(w, r.w, Run(setup, STEPS[i + 1..], r.w, r.reply.value).w);
        StepQuiet(setup, i, w, st);
        StepReaches(setup, i, w, st);
        if Honest(w, r.w) {
          RunQuiet(setup, i + 1, r.w, r.reply.value);
        }
      } else {
        StepQuiet(setup, i, w, st);
      }
    }
  }

  lemma Quiescent(w: World, a: Attempt)
    requires a.setup.manifest.Agent().Some? && Goals(a.setup, |STEPS|, w.device)
    ensures var r := RunAttempt(w, a); Honest(w, r.w) ==> Without(Mutation, w, r.w) && r.w.device == w.device
  {
    hide Run, Goal, Select;
    assert STEPS[0..] == STEPS;
    RunQuiet(a.setup, 0, w.(fates := a.fates), FRESH);
  }
}
