/** How little a run does to a device on which every goal holds already, even if
    Supervisor misleads it: each request it makes is paid for by a misread. */
module OnboardQuiet {
  import opened Common
  import opened Fleet
  import opened World
  import opened SupervisorSpec
  import opened ZigbeeOptions
  import opened OnboardSpec
  import opened OnboardTheorems

  /** At most two changing requests for each misread, and `credit` more. */
  ghost predicate Paid(w: World, w': World, credit: int) {
    && Number(Misread, w) <= Number(Misread, w')
    && Number(Mutation, w') + 2 * Number(Misread, w) <= Number(Mutation, w) + 2 * Number(Misread, w') + credit
  }

  lemma PaidTransitive(a: World, b: World, c: World, x: int, y: int)
    requires Paid(a, b, x) && Paid(b, c, y)
    ensures Paid(a, c, x + y)
  {
    hide Select;
  }

  lemma ReadsPaid(w: World, w': World)
    requires Reads(w, w')
    ensures Paid(w, w', if Honest(w, w') then 0 else -2)
  {
    hide Select;
  }

  lemma SendPaid(w: World, op: Op)
    ensures Paid(w, Send(w, op).w, 1)
  {
    hide Select, Op.Apply, Kind.Picks;
    if w.fates != [] {
      SelectAppend(Mutation, w.trace, Request(op, w.device, w.fates[0]));
      SelectAppend(Misread, w.trace, Request(op, w.device, w.fates[0]));
    }
  }

  lemma InstallPaid(w: World, slug: string)
    ensures Paid(w, InstallAddon(w, slug).w, 2)
  {
    hide Select, Send, Paid;
    SendPaid(w, Install(slug, false));
    var first := Send(w, Install(slug, false));
    if first.reply == Err(true) {
      SendPaid(first.w, Install(slug, true));
      PaidTransitive(w, first.w, Send(first.w, Install(slug, true)).w, 1, 1);
    } else {
      Widen(w, first.w, 1, 2);
    }
  }

  lemma Widen(w: World, w': World, x: int, y: int)
    requires Paid(w, w', x) && x <= y
    ensures Paid(w, w', y)
  {
  }

  /** An add-on that is there is installed again only after a misread. */
  lemma InstallStorePaid(w: World, a: Addon)
    requires StoreAddonPresent(w.device, a)
    ensures Paid(w, InstallStoreAddon(w, a).w, 0)
  {
    hide Select, ResolveAddonSlug, GetAddonInfo, InstallAddon, Paid, Resolved, Device.State, Number;
    var found := ResolveAddonSlug(w, a);
    ReadsPaid(w, found.w);
    Widen(w, found.w, if Honest(w, found.w) then 0 else -2, 0);
    if found.reply.Good? && found.reply.value.Some? {
      var slug := found.reply.value.value;
      var asked := GetAddonInfo(found.w, slug);
      ReadsPaid(found.w, asked.w);
      Widen(found.w, asked.w, if Honest(found.w, asked.w) then 0 else -2, 0);
      PaidTransitive(w, found.w, asked.w, 0, 0);
      if asked.reply.Good? && !asked.reply.value.installed {
        assert !Honest(found.w, asked.w);
        InstallPaid(asked.w, slug);
        PaidTransitive(found.w, asked.w, InstallAddon(asked.w, slug).w, -2, 2);
        PaidTransitive(w, found.w, InstallAddon(asked.w, slug).w, 0, 0);
      }
    }
  }

  lemma {:induction false} InstallAllPaid(setup: Setup, w: World, addons: seq<Addon>)
    requires forall a :: a in addons ==> AddonPresent(setup, w.device, a)
    ensures Paid(w, InstallAll(setup, w, addons).w, 0)
    decreases |addons|
  {
    hide Select, InstallOne, Paid, AddonPresent, Works;
    if addons == [] {
      ReadsCompose();
      ReadsPaid(w, w);
      Widen(w, w, if Honest(w, w) then 0 else -2, 0);
    } else {
      var head := InstallOne(setup, w, addons[0]);
      InstallOnePaid(setup, w, addons[0]);
      if head.reply.Good? {
        forall a | a in addons[1..] ensures AddonPresent(setup, head.w.device, a) {
          PresentKept(setup, w, head.w, a);
        }
        InstallAllPaid(setup, head.w, addons[1..]);
        PaidTransitive(w, head.w, InstallAll(setup, head.w, addons[1..]).w, 0, 0);
      }
    }
  }

  lemma InstallOnePaid(setup: Setup, w: World, a: Addon)
    requires AddonPresent(setup, w.device, a)
    ensures Paid(w, InstallOne(setup, w, a).w, 0)
  {
    hide Select, InstallStoreAddon, GetAddonInfo, Paid, Device.State, StoreAddonPresent;
    if IsAgent(a) && setup.dev {
      var asked := GetAddonInfo(w, LOCAL_AGENT);
      ReadsPaid(w, asked.w);
      Widen(w, asked.w, if Honest(w, asked.w) then 0 else -2, 0);
    } else {
      InstallStorePaid(w, a);
    }
  }

  lemma ReadThenPaid(a: World, b: World, c: World, credit: int)
    requires Reads(a, b) && Paid(b, c, credit)
    ensures Paid(a, c, credit)
  {
    hide Select, Paid;
    ReadsPaid(a, b);
    Widen(a, b, if Honest(a, b) then 0 else -2, 0);
    PaidTransitive(a, b, c, 0, credit);
  }

  lemma PointPaid(w: World, slug: string, z: Zigbee)
    ensures Paid(w, PointAndRun(w, slug, z).w, 2)
  {
    hide Select, GetAddonInfo, Send, Merged, Paid, Device.State, Reads;
    var asked := GetAddonInfo(w, slug);
    assert Reads(w, asked.w) by { InfoReads(w, slug); }
    ReadsPaid(w, asked.w);
    Widen(w, asked.w, if Honest(w, asked.w) then 0 else -2, 2);
    if asked.reply.Good? {
      var options := Merged(asked.reply.value.options, z);
      var written := Send(asked.w, SetOptions(slug, options));
      SendPaid(asked.w, SetOptions(slug, options));
      ReadThenPaid(w, asked.w, written.w, 1);
      Widen(w, written.w, 1, 2);
      if written.reply.Good? {
        var run := if asked.reply.value.started then Restart(slug) else Start(slug);
        SendPaid(written.w, run);
        PaidTransitive(w, written.w, Send(written.w, run).w, 1, 1);
      }
    }
  }

  lemma InfoReads(w: World, slug: string)
    ensures Reads(w, GetAddonInfo(w, slug).w)
  {
    hide Select, AtMostOnce, GetAddonInfo;
  }

  lemma ReloadPaid(w: World, slug: string)
    ensures Paid(w, ReloadIfRunning(w, slug).w, 1)
  {
    hide Select, GetAddonInfo, Send, Paid, Device.State, Reads;
    var asked := GetAddonInfo(w, slug);
    InfoReads(w, slug);
    ReadsPaid(w, asked.w);
    Widen(w, asked.w, if Honest(w, asked.w) then 0 else -2, 1);
    if asked.reply.Good? && asked.reply.value.started {
      SendPaid(asked.w, Restart(slug));
      ReadThenPaid(w, asked.w, Send(asked.w, Restart(slug)).w, 1);
    }
  }

  lemma ConfigurePaid(setup: Setup, w: World, slug: string)
    ensures Paid(w, ConfigureAndReload(setup, w, slug).w, 2)
  {
    hide Select, ReloadIfRunning, Send, Paid, Device.State;
    var op := SetOptions(slug, setup.agentOptions);
    var written := Send(w, op);
    SendPaid(w, op);
    Widen(w, written.w, 1, 2);
    if written.reply.Good? {
      ReloadPaid(written.w, slug);
      PaidTransitive(w, written.w, ReloadIfRunning(written.w, slug).w, 1, 1);
    }
  }

  lemma AgentPaid(setup: Setup, w: World, st: State)
    ensures Paid(w, ActAgent(setup, w, st).w, 2)
  {
    hide Select, ResolveAgent, ConfigureAndReload, Paid, Reads, Works, Honest;
    var resolved := ResolveAgent(setup, w, st);
    ReadsPaid(w, resolved.w);
    Widen(w, resolved.w, if Honest(w, resolved.w) then 0 else -2, 2);
    if resolved.reply.Good? {
      var slug := resolved.reply.value.agentSlug;
      ConfigurePaid(setup, resolved.w, slug);
      ReadThenPaid(w, resolved.w, ConfigureAndReload(setup, resolved.w, slug).w, 2);
    }
  }

  lemma BrokerPaid(setup: Setup, w: World)
    ensures Paid(w, ActBroker(setup, w).w, 2)
  {
    hide Select, BrokerSlug, Send, Paid, Reads, Works, Honest, Resolved;
    var found := BrokerSlug(setup, w);
    ReadsPaid(w, found.w);
    Widen(w, found.w, if Honest(w, found.w) then 0 else -2, 2);
    if found.reply.Good? && found.reply.value.Some? {
      var op := Start(found.reply.value.value);
      SendPaid(found.w, op);
      ReadThenPaid(w, found.w, Send(found.w, op).w, 1);
      Widen(w, Send(found.w, op).w, 1, 2);
    }
  }

  lemma ZigbeePaid(setup: Setup, w: World)
    ensures Paid(w, ActZigbee(setup, w).w, 2)
  {
    hide Select, ZigbeeSlug, PointAndRun, Paid, Reads, Works, Honest, Resolved;
    var found := ZigbeeSlug(setup, w);
    ReadsPaid(w, found.w);
    Widen(w, found.w, if Honest(w, found.w) then 0 else -2, 2);
    if found.reply.Good? && found.reply.value.Some? {
      var slug := found.reply.value.value;
      PointPaid(found.w, slug, setup.zigbee);
      ReadThenPaid(w, found.w, PointAndRun(found.w, slug, setup.zigbee).w, 2);
    }
  }

  /** No action but registering repositories makes more than two changing requests
      on a complete device, other than those that a misread pays for. */
  lemma ActPaid(setup: Setup, s: StepName, w: World, st: State)
    requires Decisive(s) && s != AddonRepos && Everything(setup, w.device)
    ensures Paid(w, Act(setup, s, w, st).w, 2)
  {
    hide Select, ActAgent, ActBroker, ActZigbee, InstallAll, Send, Paid, AddonPresent, StepFrame, Works;
    match s {
      case InstallAddons =>
        InstallAllPaid(setup, w, setup.manifest.addons);
        Widen(w, InstallAll(setup, w, setup.manifest.addons).w, 0, 2);
      case StartBroker => BrokerPaid(setup, w);
      case ConfigureZigbee => ZigbeePaid(setup, w);
      case ConfigureAgent => AgentPaid(setup, w, st);
      case StartAgent =>
        SendPaid(w, Start(st.agentSlug));
        Widen(w, Send(w, Start(st.agentSlug)).w, 1, 2);
    }
  }

  // ---- the goals stay, whoever is misled ------------------------------------------

  /** A device on which every goal holds, seen by a run before step i. */
  ghost predicate Complete(setup: Setup, i: nat, d: Device, st: State) {
    && Separate(setup) && NoAlias(d) && setup.manifest.Agent().Some?
    && Goals(setup, |STEPS|, d) && StateKnown(setup, i, d, st)
  }

  lemma GoalOf(setup: Setup, d: Device, j: nat)
    requires Goals(setup, |STEPS|, d) && j < |STEPS|
    ensures Goal(setup, STEPS[j], d)
  {
  }

  lemma ZigbeeStays(setup: Setup, w: World)
    requires ZigbeeUp(setup, w.device)
    ensures ZigbeeUp(setup, ActZigbee(setup, w).w.device)
  {
    hide Select, ZigbeeSlug, PointAndRun, AtMostOnce, Resolved, Device.State, TrimSpace, SerialSatisfied, Reads;
    hide Sincere;
    ReadsCompose();
    var found := ZigbeeSlug(setup, w);
    if found.reply.Good? && found.reply.value.Some? {
      var acted := PointAndRun(found.w, found.reply.value.value, setup.zigbee);
    }
  }

  lemma AgentStays(setup: Setup, w: World, st: State, slug: string)
    requires AgentConfigured(setup, w.device, slug) && AgentSlugOf(setup, w.device.store) == Some(slug)
    requires st.agentSlug in {"", slug}
    ensures AgentConfigured(setup, ActAgent(setup, w, st).w.device, slug)
  {
    hide Select, ResolveAgent, ConfigureAndReload, AtMostOnce, AgentSlugOf, Reads, Works, AgentConfigured, Device.State;
    ReadsCompose();
    var resolved := ResolveAgent(setup, w, st);
    if resolved.reply.Good? {
      assert resolved.reply.value.agentSlug == slug;
    }
  }

  /** An action on a complete device keeps every goal, its own and the later ones too. */
  lemma ActStays(setup: Setup, i: nat, w: World, st: State)
    requires i < |STEPS| && STEPS[i] != AddonRepos && Complete(setup, i + 1, w.device, st)
    ensures Goals(setup, |STEPS|, Act(setup, STEPS[i], w, st).w.device)
  {
    hide Select, AtMostOnce, Act, Goal, Works, Separate, AgentSlugOf, Touched, Device.State, Gains, Reached, SlugHeld;
    hide ZigbeeSlugs;
    var s := STEPS[i];
    var w' := Act(setup, s, w, st).w;
    if s == OwnerAndToken {
      GoalOf(setup, w.device, 1);
      OwnerThere(setup, w.device);
      assert w'.device == w.device;
    } else {
      forall j | 0 <= j < |STEPS| ensures Goal(setup, STEPS[j], w'.device) {
        GoalOf(setup, w.device, j);
        ActKeeps(setup, i, j, w, st);
      }
    }
  }

  lemma OwnerThere(setup: Setup, d: Device)
    requires Goal(setup, OwnerAndToken, d)
    ensures d.owner && d.(owner := true) == d
  {
  }

  lemma ActKeeps(setup: Setup, i: nat, j: nat, w: World, st: State)
    requires i < |STEPS| && j < |STEPS| && STEPS[i] != AddonRepos && STEPS[i] != OwnerAndToken
    requires Separate(setup) && NoAlias(w.device) && StateKnown(setup, i + 1, w.device, st)
    requires Goal(setup, STEPS[j], w.device)
    ensures Goal(setup, STEPS[j], Act(setup, STEPS[i], w, st).w.device)
  {
    hide Select, AtMostOnce, Works, Separate, AgentSlugOf, Device.State, Gains, Reached, SlugHeld, Acted, Resolved;
    hide ZigbeeUp, AgentConfigured, HaveRepos, Everything, BrokerUp, ActZigbee, ActAgent, ActConnect, ActAwait;
    var s, g := STEPS[i], STEPS[j];
    var w' := Act(setup, s, w, st).w;
    assert Works(w, w', Touched(setup, s, w.device.store, st)) by { ActFrame(setup, s, w, st); }
    if s == ConfigureZigbee && g == ConfigureZigbee {
      ZigbeeActs(setup, w, st);
      ZigbeeStays(setup, w);
    } else if s == ConfigureAgent && g == ConfigureAgent {
      AgentStays(setup, w, st, AgentSlugOf(setup, w.device.store).value);
      SameStore(w, w', Touched(setup, s, w.device.store, st));
    } else if s == ConfigureZigbee && g == ConfigureAgent {
      OtherOptions(setup, w, w');
    } else {
      SeparateExactly(setup);
      WorksKeepGoal(setup, g, w, w', Touched(setup, s, w.device.store, st));
    }
  }

  lemma ActFrame(setup: Setup, s: StepName, w: World, st: State)
    requires s != AddonRepos && s != OwnerAndToken
    ensures Works(w, Act(setup, s, w, st).w, Touched(setup, s, w.device.store, st))
  {
    hide Act, Works, Touched, Reached, SlugHeld, Reads;
  }

  lemma ZigbeeActs(setup: Setup, w: World, st: State)
    ensures Act(setup, ConfigureZigbee, w, st).w == ActZigbee(setup, w).w
  {
    hide ActZigbee, Acted, ZigbeeUp, Works, Select;
  }

  lemma SameStore(w: World, w': World, slugs: set<string>)
    requires Works(w, w', slugs)
    ensures w'.device.store == w.device.store
  {
  }

  /** Writing the coordinator's options leaves the agent's alone. */
  lemma OtherOptions(setup: Setup, w: World, w': World)
    requires Separate(setup) && NoAlias(w.device) && Works(w, w', ZigbeeSlugs(setup, w.device.store))
    requires Goal(setup, ConfigureAgent, w.device)
    ensures Goal(setup, ConfigureAgent, w'.device)
  {
    hide Select, AtMostOnce, Separate, AgentSlugOf, Device.State, Gains, Resolved, Sincere;
    SeparateExactly(setup);
  }

  // ---- a whole run -------------------------------------------------------------------

  lemma StateLater(setup: Setup, i: nat, w: World, st: State)
    requires i < |STEPS| && StateKnown(setup, i, w.device, st)
    ensures var c := Check(setup, STEPS[i], w, st);
      c.reply.Good? ==> StateKnown(setup, i + 1, c.w.device, c.reply.value.st)
  {
    hide Select, AtMostOnce, Check, AgentSlugOf, Tells, Device.State;
  }

  lemma ReposDone(setup: Setup, w: World, st: State)
    requires HaveRepos(setup, w.device)
    ensures var r := RunStep(setup, AddonRepos, w, st); Reads(w, r.w)
  {
    hide Select, HaveRepos, CheckRepos, Act, Verify, Reads, Tells;
    ReadsCompose();
    var listed := CheckRepos(setup, w);
  }

  /** A check that fails on a complete device has been misled. */
  lemma Misled(setup: Setup, i: nat, w: World, st: State)
    requires i < |STEPS| && Complete(setup, i, w.device, st)
    ensures var c := Check(setup, STEPS[i], w, st);
      c.reply.Good? && !c.reply.value.done && Decisive(STEPS[i]) ==> !Honest(w, c.w)
  {
    hide Select, AtMostOnce, Check, AgentSlugOf, Device.State, HaveRepos, Everything, BrokerUp, ZigbeeUp;
    hide AgentConfigured;
    hide Number, Separate;
    var s := STEPS[i];
    var c := Check(setup, s, w, st);
    GoalOf(setup, w.device, i);
    GoalOf(setup, w.device, 3);
    if c.reply.Good? && NeedsAgent(s) {
      AgentInstalled(setup, w.device, c.reply.value.st.agentSlug);
    }
  }

  lemma StepPaid(setup: Setup, i: nat, w: World, st: State)
    requires i < |STEPS| && Complete(setup, i, w.device, st)
    ensures var r := RunStep(setup, STEPS[i], w, st);
      Paid(w, r.w, 0) && Goals(setup, |STEPS|, r.w.device) && r.w.device.self == w.device.self
  {
    hide Select, AtMostOnce, Check, Act, Verify, Paid, Goals, Honest, Separate, StateKnown, Tells, Acted, Reads;
    var s := STEPS[i];
    AliasStays(setup, s, w, st);
    ReadsCompose();
    if s == AddonRepos {
      GoalOf(setup, w.device, 2);
      ReposDone(setup, w, st);
      var w' := RunStep(setup, s, w, st).w;
      NothingPaid(w');
      ReadThenPaid(w, w', w', 0);
    } else {
      var check := Check(setup, s, w, st);
      NothingPaid(check.w);
      ReadThenPaid(w, check.w, check.w, 0);
      if check.reply.Good? && !check.reply.value.done {
        ActedPaid(setup, i, w, st);
        var act := Act(setup, s, check.w, check.reply.value.st);
        if act.reply.Good? {
          var verify := Verify(setup, s, act.w, act.reply.value);
          NothingPaid(verify.w);
          ReadThenPaid(act.w, verify.w, verify.w, 0);
          PaidTransitive(w, act.w, verify.w, 0, 0);
        }
      }
    }
  }

  lemma NothingPaid(w: World)
    ensures Paid(w, w, 0)
  {
  }

  lemma ActedPaid(setup: Setup, i: nat, w: World, st: State)
    requires i < |STEPS| && STEPS[i] != AddonRepos && Complete(setup, i, w.device, st)
    ensures var check := Check(setup, STEPS[i], w, st);
      check.reply.Good? && !check.reply.value.done ==>
        var act := Act(setup, STEPS[i], check.w, check.reply.value.st);
        Paid(w, act.w, 0) && Goals(setup, |STEPS|, act.w.device)
  {
    hide Select, AtMostOnce, Check, Act, Paid, Goals, Goal, Honest, Separate, StateKnown, Tells, Acted, Reads, Number;
    hide Everything;
    var s := STEPS[i];
    var check := Check(setup, s, w, st);
    if check.reply.Good? && !check.reply.value.done {
      ReadsCompose();
      StateLater(setup, i, w, st);
      ActStays(setup, i, check.w, check.reply.value.st);
      var act := Act(setup, s, check.w, check.reply.value.st);
      if Decisive(s) {
        Misled(setup, i, w, st);
        ReadsPaid(w, check.w);
        assert Everything(setup, w.device) by { GoalOf(setup, w.device, 3); InstalledGoal(setup, w.device); }
        ActPaid(setup, s, check.w, check.reply.value.st);
        PaidTransitive(w, check.w, act.w, -2, 2);
      } else {
        IdlePaid(setup, s, check.w, check.reply.value.st);
        ReadThenPaid(w, check.w, act.w, 0);
      }
    }
  }

  lemma InstalledGoal(setup: Setup, d: Device)
    ensures Goal(setup, STEPS[3], d) ==> Everything(setup, d)
  {
  }

  lemma IdlePaid(setup: Setup, s: StepName, w: World, st: State)
    requires !Decisive(s)
    ensures Paid(w, Act(setup, s, w, st).w, 0)
  {
    hide Select, Act, SlugHeld, Reached, Works;
  }

  /** A run on a device on which every goal holds makes no more than two repository,
      install, options, start or restart requests for each info request that
      Supervisor rejects for an installed add-on, and none if it rejects none; and
      wherever the run is cut, every goal still holds. */
  lemma {:induction false} RunPaid(setup: Setup, i: nat, w: World, st: State)
    requires i <= |STEPS| && Complete(setup, i, w.device, st)
    ensures var r := Run(setup, STEPS[i..], w, st);
      Paid(w, r.w, 0) && Goals(setup, |STEPS|, r.w.device)
    decreases |STEPS| - i
  {
    hide RunStep, Paid, Goals, StateKnown, Separate, Select, Goal;
    if i == |STEPS| {
      NothingPaid(w);
    } else {
      assert STEPS[i..][0] == STEPS[i] && STEPS[i..][1..] == STEPS[i + 1..];
      var r := RunStep(setup, STEPS[i], w, st);
      StepPaid(setup, i, w, st);
      if r.reply.Good? {
        StepReaches(setup, i, w, st);
        RunPaid(setup, i + 1, r.w, r.reply.value);
        PaidTransitive(w, r.w, Run(setup, STEPS[i + 1..], r.w, r.reply.value).w, 0, 0);
      }
    }
  }

  /** The same of a run of the command, which comes to nothing at all on a device that
      Supervisor tells the truth about. */
  lemma QuietButForMisreads(w: World, a: Attempt)
    requires Separate(a.setup) && NoAlias(w.device) && a.setup.manifest.Agent().Some?
    requires Goals(a.setup, |STEPS|, w.device)
    ensures var w' := RunAttempt(w, a).w;
      Paid(w, w', 0) && Goals(a.setup, |STEPS|, w'.device)
  {
    hide Run, Goals, Select, Separate;
    assert STEPS[0..] == STEPS;
    RunPaid(a.setup, 0, w.(fates := a.fates), FRESH);
  }
}
