/** The update engine as the agent runs it (internal/agent/update.go): the marker
    store, and the pass, statement by statement. */
module UpdateAgent {
  import opened Common
  import opened Fleet
  import opened World
  import opened SupervisorSpec
  import opened SupervisorClient
  import opened UpdateSpec

  /** The resume marker in memory; its file lies on the gateway's disk. */
  class UpdateStore {
    var state: Marker
    const host: Client

    constructor (host: Client)
      ensures this.host == host && state == host.w.file
    {
      this.host := host;
      state := host.w.file;
    }

    method Write(m: Marker) returns (r: Reply<()>)
      modifies this`state, host
      ensures state == m && Outcome(host.w, r) == Persist(old(host.w), m)
    {
      state := m;
      var outcome := Persist(host.w, m);
      host.w := outcome.w;
      r := outcome.reply;
    }
  }

  class Engine {
    const sup: Client
    const updateState: UpdateStore
    const manifest: Option<Manifest>

    ghost predicate Valid() {
      updateState.host == sup
    }

    constructor (sup: Client, manifest: Option<Manifest>)
      ensures Valid() && this.sup == sup && this.manifest == manifest
      ensures fresh(updateState) && updateState.state == sup.w.file
    {
      this.sup := sup;
      this.manifest := manifest;
      this.updateState := new UpdateStore(sup);
    }

    method ReportUpdateStatus(status: Status, id: string) returns (r: Reply<()>)
      modifies sup
      ensures Outcome(sup.w, r) == Publish(old(sup.w), status, id)
    {
      var outcome := Publish(sup.w, status, id);
      sup.w := outcome.w;
      r := outcome.reply;
    }

    method TurnOnAutoUpdate(slug: string, on: bool) returns (r: Reply<()>)
      modifies sup
      ensures Outcome(sup.w, r) == EnableAutoUpdate(old(sup.w), slug, on)
    {
      if on {
        return Good(());
      }
      var reply := sup.Call(SetAutoUpdate(slug, true));
      r := if reply.Crash? then Crash else Good(());
    }

    method FindOrRegister(dep: Addon) returns (r: Reply<Option<string>>)
      modifies sup
      ensures Outcome(sup.w, r) == ResolveOrRegister(old(sup.w), dep)
    {
      hide ResolveAddonSlug, AddStoreRepository, Select;
      r := sup.Resolve(dep);
      if r == Good(None) && !dep.core && dep.repository != "" {
        var _ :- sup.RegisterRepository(dep.repository);
        r := sup.Resolve(dep);
      }
    }

    method InfoOnceInstalled(slug: string) returns (r: Reply<AddonInfo>)
      modifies sup
      ensures Outcome(sup.w, r) == EnsureInstalled(old(sup.w), slug)
    {
      hide GetAddonInfo, InstallAddon, Select;
      r := sup.Info(slug);
      if r.Good? && !r.value.installed {
        var _ :- sup.InstallLatest(slug);
        r := sup.Info(slug);
      }
    }

    method BringUpToDate(dep: Addon) returns (r: Reply<()>)
      modifies sup
      ensures Outcome(sup.w, r) == UpdateAddon(old(sup.w), dep)
    {
      hide ResolveOrRegister, EnsureInstalled, EnableAutoUpdate, UpdateAddonLatest, Select;
      var found :- FindOrRegister(dep);
      if found.None? {
        return Good(());
      }
      var slug := found.value;
      var info :- InfoOnceInstalled(slug);
      var _ :- TurnOnAutoUpdate(slug, info.autoUpdate);
      if info.updateAvailable {
        var _ :- sup.UpdateLatest(slug);
      }
      return Good(());
    }

    method BringAllUpToDate(deps: seq<Addon>) returns (r: Reply<()>)
      modifies sup
      ensures Outcome(sup.w, r) == UpdateAddons(old(sup.w), deps)
    {
      hide UpdateAddon, Select;
      for i := 0 to |deps|
        invariant UpdateAddons(sup.w, deps[i..]) == UpdateAddons(old(sup.w), deps)
      {
        if deps[i].matchName != AGENT_MATCH {
          var _ :- BringUpToDate(deps[i]);
        }
        assert deps[i..][1..] == deps[i + 1..];
      }
      return Good(());
    }

    /** OS, then Core, then self; true as soon as one of them was set off. */
    method RebootProne() returns (r: Reply<bool>)
      modifies sup
      ensures Outcome(sup.w, r) == UpdateSystem(old(sup.w))
    {
      hide Send, GetAddonInfo, EnableAutoUpdate, UpdateAddonLatest, Select;
      var _ :- sup.Call(GetOS);
      if UpdateAvailable(sup.w.device.os) {
        var _ :- sup.Call(UpdateOS);
        return Good(true);
      }
      var _ :- sup.Call(GetCore);
      if UpdateAvailable(sup.w.device.core) {
        var _ :- sup.Call(UpdateCore);
        return Good(true);
      }
      var info :- sup.Info(SELF);
      if !info.installed {
        return Good(false);
      }
      var _ :- TurnOnAutoUpdate(SELF, info.autoUpdate);
      if !info.updateAvailable {
        return Good(false);
      }
      var _ :- sup.UpdateLatest(SELF);
      return Good(true);
    }

    /** Clear the marker, then report how the pass ended. */
    method EndPass(status: Status, id: string) returns (r: Reply<()>)
      requires Valid()
      modifies sup, updateState`state
      ensures Outcome(sup.w, r) == Finish(old(sup.w), status, id)
      ensures updateState.state == CLEAR
    {
      hide Persist, Publish;
      var _ :- updateState.Write(CLEAR);
      r := ReportUpdateStatus(status, id);
    }

    /** One pass, which goes as the specification says; in memory the marker is
        left set only by a pass that set off a restart. */
    method UpdateAll(id: string) returns (r: Reply<PassEnd>)
      requires Valid()
      modifies sup, updateState`state
      ensures Outcome(sup.w, r) == UpdateSpec.UpdateAll(old(sup.w), manifest, id)
      ensures r.Good? ==> updateState.state == if r.value.Triggered? then Marker(true, id) else CLEAR
    {
      hide Persist, Publish, UpdateAddons, UpdateSystem, Finish, Select;
      if id != "" {
        var _ :- ReportUpdateStatus(Started, id);
      }
      var _ :- updateState.Write(Marker(true, id));
      var triggered: Reply<bool> := Err(false);
      if manifest.Some? {
        var addons := BringAllUpToDate(manifest.value.addons);
        if addons.Good? {
          triggered := RebootProne();
        } else {
          triggered := addons.PropagateFailure();
        }
      }
      match triggered {
        case Crash =>
          return Crash;
        case Err(_) =>
          var _ :- EndPass(Failed, id);
          return Good(Failure);
        case Good(true) =>
          return Good(Triggered);
        case Good(false) =>
          var _ :- EndPass(Ok, id);
          return Good(Converged);
      }
    }
  }
}
