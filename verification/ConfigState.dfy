/** The retained config document (internal/agent/config_state.go): claim, version and
    device map in memory, and the file they are restored from. */
module ConfigState {
  import opened Common
  import opened EntityMap

  datatype Config = Config(claimed: bool, version: int, entries: seq<Entry>)

  datatype Memory = Memory(claimed: bool, version: int, emap: Map)

  // ---- one document after the other --------------------------------------------------

  function Applied(m: Memory, cfg: Config): Memory {
    if cfg.version < m.version then m else Memory(cfg.claimed, cfg.version, Of(cfg.entries))
  }

  function AppliedAll(m: Memory, docs: seq<Config>): Memory {
    if docs == [] then m else Applied(AppliedAll(m, docs[..|docs| - 1]), docs[|docs| - 1])
  }

  /** Its version is at least the initial one and at least all earlier ones. */
  ghost predicate Rules(version: int, docs: seq<Config>, k: nat)
    requires k < |docs|
  {
    version <= docs[k].version && forall j :: 0 <= j < k ==> docs[j].version <= docs[k].version
  }

  /** The version in memory is the highest of the initial one and all delivered. */
  lemma {:induction false} HighestVersion(m: Memory, docs: seq<Config>)
    ensures var v := AppliedAll(m, docs).version;
      && m.version <= v && (forall j :: 0 <= j < |docs| ==> docs[j].version <= v)
      && (v == m.version || exists j :: 0 <= j < |docs| && docs[j].version == v)
  {
    hide Of;
    if docs != [] {
      var init := docs[..|docs| - 1];
      HighestVersion(m, init);
      assert forall j :: 0 <= j < |init| ==> init[j] == docs[j];
    }
  }

  /** After any sequence of deliveries, stale and repeated ones among them, memory is
      exactly as the last document says whose version is at least the initial one
      and at least all earlier ones. */
  lemma {:induction false} LastRulingWins(m: Memory, docs: seq<Config>, k: nat)
    requires k < |docs| && Rules(m.version, docs, k)
    requires forall j :: k < j < |docs| ==> !Rules(m.version, docs, j)
    ensures AppliedAll(m, docs) == Memory(docs[k].claimed, docs[k].version, Of(docs[k].entries))
  {
    hide Of;
    var init := docs[..|docs| - 1];
    HighestVersion(m, init);
    assert forall j :: 0 <= j < |init| ==> init[j] == docs[j];
    if k < |init| {
      assert !Rules(m.version, docs, |init|);
      forall j | k < j < |init| ensures !Rules(m.version, init, j) {
        assert !Rules(m.version, docs, j);
      }
      LastRulingWins(m, init, k);
    }
  }

  /** Without such a document memory is as it was. */
  lemma {:induction false} NoneRules(m: Memory, docs: seq<Config>)
    requires forall j :: 0 <= j < |docs| ==> !Rules(m.version, docs, j)
    ensures AppliedAll(m, docs) == m
  {
    hide Of;
    if docs != [] {
      var init := docs[..|docs| - 1];
      forall j | 0 <= j < |init| ensures !Rules(m.version, init, j) {
        assert !Rules(m.version, docs, j);
      }
      NoneRules(m, init);
      assert !Rules(m.version, docs, |init|);
      FirstBreach(m.version, docs, |init|);
    }
  }

  /** A document that does not rule although none before it does is below the
      initial version. */
  lemma {:induction false} FirstBreach(version: int, docs: seq<Config>, k: nat)
    requires k < |docs| && forall j :: 0 <= j <= k ==> !Rules(version, docs, j)
    ensures docs[k].version < version
    decreases k
  {
    assert !Rules(version, docs, k);
    if version <= docs[k].version {
      var j :| 0 <= j < k && docs[j].version > docs[k].version;
      FirstBreach(version, docs, j);
    }
  }

  // ---- with the file, handlers interleaving -----------------------------------------------

  /** A handler has changed memory under the lock and is yet to write the file. */
  datatype State = State(memory: Memory, file: Option<Config>, saving: seq<Config>)

  datatype Action = Receive(cfg: Config) | Save(i: nat, ok: bool) | Restart

  predicate Enabled(s: State, a: Action) {
    a.Save? ==> a.i < |s.saving|
  }

  /** What a start of the agent makes of the file: an empty stored map leaves the
      bootstrap map in place. */
  function Restored(bootstrap: Map, file: Option<Config>): Memory {
    if file.None? then Memory(false, 0, bootstrap)
    else
      var cfg := file.value;
      Memory(cfg.claimed, cfg.version, if cfg.entries == [] then bootstrap else Of(cfg.entries))
  }

  /** The agent as it comes up with this file, or without one. */
  function Boot(bootstrap: Map, file: Option<Config>): State {
    State(Restored(bootstrap, file), file, [])
  }

  function Next(bootstrap: Map, s: State, a: Action): State
    requires Enabled(s, a)
  {
    match a
    case Receive(cfg) =>
      if cfg.version < s.memory.version then s
      else s.(memory := Applied(s.memory, cfg), saving := s.saving + [cfg])
    case Save(i, ok) =>
      s.(file := if ok then Some(s.saving[i]) else s.file, saving := RemoveAt(s.saving, i))
    case Restart => Boot(bootstrap, s.file)
  }

  ghost predicate IsRun(bootstrap: Map, file: Option<Config>, states: seq<State>, actions: seq<Action>) {
    && |states| == |actions| + 1 && states[0] == Boot(bootstrap, file)
    && forall k :: 0 <= k < |actions| ==>
         Enabled(states[k], actions[k]) && states[k + 1] == Next(bootstrap, states[k], actions[k])
  }

  ghost predicate DiskBehind(s: State) {
    && (s.file.Some? ==> s.file.value.version <= s.memory.version)
    && (forall cfg :: cfg in s.saving ==> cfg.version <= s.memory.version)
  }

  lemma StepKeeps(bootstrap: Map, s: State, a: Action)
    requires DiskBehind(s) && Enabled(s, a)
    ensures DiskBehind(Next(bootstrap, s, a))
  {
    hide Of;
    if a.Save? {
      assert s.saving[a.i] in s.saving;
      assert forall cfg :: cfg in RemoveAt(s.saving, a.i) ==> cfg in s.saving;
    }
  }

  /** However handlers, failing writes and restarts interleave after any boot, the file is never
      ahead of memory, nor is a write still to come. */
  lemma {:induction false} FileNeverAhead(
      bootstrap: Map, file: Option<Config>, states: seq<State>, actions: seq<Action>, k: nat)
    requires IsRun(bootstrap, file, states, actions) && k < |states|
    ensures DiskBehind(states[k])
  {
    hide Next, Of;
    if k > 0 {
      FileNeverAhead(bootstrap, file, states, actions, k - 1);
      StepKeeps(bootstrap, states[k - 1], actions[k - 1]);
    }
  }

  // ---- restarts between handlers -------------------------------------------------------------

  /** A whole handler: memory, then the file. */
  function Handled(s: State, cfg: Config, saved: bool): State {
    if cfg.version < s.memory.version then s
    else s.(memory := Applied(s.memory, cfg), file := if saved then Some(cfg) else s.file)
  }

  /** The steps of a handler that nothing interleaves with are the whole handler. */
  lemma AloneIsHandled(bootstrap: Map, s: State, cfg: Config, saved: bool)
    requires s.saving == [] && cfg.version >= s.memory.version
    ensures var received := Next(bootstrap, s, Receive(cfg));
      Enabled(received, Save(0, saved)) && Next(bootstrap, received, Save(0, saved)) == Handled(s, cfg, saved)
  {
    hide Of;
  }

  /** Deliveries one after the other; each write works or fails. */
  function HandledAll(s: State, docs: seq<Config>, saved: seq<bool>): State
    requires |saved| == |docs|
  {
    if docs == [] then s
    else
      var last := |docs| - 1;
      Handled(HandledAll(s, docs[..last], saved[..last]), docs[last], saved[last])
  }

  lemma {:induction false} HandledIsApplied(s: State, docs: seq<Config>, saved: seq<bool>)
    requires |saved| == |docs|
    ensures HandledAll(s, docs, saved).memory == AppliedAll(s.memory, docs)
  {
    hide Of;
    if docs != [] {
      HandledIsApplied(s, docs[..|docs| - 1], saved[..|docs| - 1]);
    }
  }

  /** A document rules exactly if it is not below the version then in memory. */
  lemma RulesIsHigh(m: Memory, docs: seq<Config>, last: nat)
    requires last < |docs|
    ensures Rules(m.version, docs, last) <==> docs[last].version >= AppliedAll(m, docs[..last]).version
  {
    hide AppliedAll;
    HighestVersion(m, docs[..last]);
    assert forall j :: 0 <= j < last ==> docs[..last][j] == docs[j];
  }

  /** The last delivery changes something exactly if it rules. */
  lemma OneMoreHandled(s: State, docs: seq<Config>, saved: seq<bool>)
    requires |saved| == |docs| > 0
    ensures var last := |docs| - 1;
      var before, after := HandledAll(s, docs[..last], saved[..last]), HandledAll(s, docs, saved);
      if Rules(s.memory.version, docs, last)
      then
        && after.memory == Memory(docs[last].claimed, docs[last].version, Of(docs[last].entries))
        && after.file == if saved[last] then Some(docs[last]) else before.file
      else after == before
  {
    hide Of, AppliedAll, Rules;
    var last := |docs| - 1;
    HandledIsApplied(s, docs[..last], saved[..last]);
    RulesIsHigh(s.memory, docs, last);
  }

  /** The last document that rules, or that rules and was saved. */
  ghost predicate LastRuling(version: int, docs: seq<Config>, k: nat) {
    k < |docs| && Rules(version, docs, k) && forall j :: k < j < |docs| ==> !Rules(version, docs, j)
  }

  ghost predicate LastSaved(version: int, docs: seq<Config>, saved: seq<bool>, k: nat)
    requires |saved| == |docs|
  {
    && k < |docs| && Rules(version, docs, k) && saved[k]
    && forall j :: k < j < |docs| ==> !(Rules(version, docs, j) && saved[j])
  }

  lemma SameRules(version: int, docs: seq<Config>, n: nat)
    requires n <= |docs|
    ensures forall j :: 0 <= j < n ==> (Rules(version, docs[..n], j) <==> Rules(version, docs, j))
  {
  }

  /** The last ruling document whose write worked is the one on file. */
  lemma {:induction false} LastRulingOnFile(s: State, docs: seq<Config>, saved: seq<bool>, k: nat)
    requires |saved| == |docs| && LastSaved(s.memory.version, docs, saved, k)
    ensures HandledAll(s, docs, saved).file == Some(docs[k])
  {
    hide HandledAll, Rules, Of;
    var last := |docs| - 1;
    OneMoreHandled(s, docs, saved);
    if k < last {
      SameRules(s.memory.version, docs, last);
      LastRulingOnFile(s, docs[..last], saved[..last], k);
    }
  }

  /** Without one the file is as it was. */
  lemma {:induction false} NothingOnFile(s: State, docs: seq<Config>, saved: seq<bool>)
    requires |saved| == |docs| && forall k: nat :: !LastSaved(s.memory.version, docs, saved, k)
    ensures HandledAll(s, docs, saved).file == s.file
  {
    hide Rules, Of;
    if docs != [] {
      var last := |docs| - 1;
      OneMoreHandled(s, docs, saved);
      SameRules(s.memory.version, docs, last);
      assert !LastSaved(s.memory.version, docs, saved, last);
      forall k: nat ensures !LastSaved(s.memory.version, docs[..last], saved[..last], k) {
        assert !LastSaved(s.memory.version, docs, saved, k);
      }
      NothingOnFile(s, docs[..last], saved[..last]);
    }
  }

  /** Memory is what a restart from the file would make it, up to an empty map. */
  ghost predicate Mirrored(bootstrap: Map, s: State) {
    if s.file.None? then s.memory == Restored(bootstrap, None)
    else s.memory == Memory(s.file.value.claimed, s.file.value.version, Of(s.file.value.entries))
         || (s.file.value.entries == [] && s.memory == Restored(bootstrap, s.file))
  }

  /** After any deliveries whose ruling documents were saved, the file mirrors memory. */
  lemma {:induction false} HandledMirrors(bootstrap: Map, s: State, docs: seq<Config>, saved: seq<bool>)
    requires |saved| == |docs| && Mirrored(bootstrap, s)
    ensures (forall k :: 0 <= k < |docs| && Rules(s.memory.version, docs, k) ==> saved[k]) ==>
              Mirrored(bootstrap, HandledAll(s, docs, saved))
  {
    hide Of, Rules;
    if docs != [] && forall k :: 0 <= k < |docs| && Rules(s.memory.version, docs, k) ==> saved[k] {
      var last := |docs| - 1;
      SameRules(s.memory.version, docs, last);
      HandledMirrors(bootstrap, s, docs[..last], saved[..last]);
      OneMoreHandled(s, docs, saved);
    }
  }

  /** What a restart comes up with after any boot and any deliveries, each with a write
      that works or fails: what the last ruling document says that was saved, or else
      what the boot before came up with. If the last ruling document was saved, claim
      and version are exactly those in memory, and the map is exactly if that document
      lists entries or the bootstrap map is empty. */
  lemma {:induction false} RestartRestores(
      bootstrap: Map, file: Option<Config>, docs: seq<Config>, saved: seq<bool>)
    requires |saved| == |docs|
    ensures var s := HandledAll(Boot(bootstrap, file), docs, saved);
      var v, memory, again := Restored(bootstrap, file).version, s.memory, Restored(bootstrap, s.file);
      && (forall k: nat :: LastSaved(v, docs, saved, k) ==> again == Restored(bootstrap, Some(docs[k])))
      && ((forall k: nat :: !LastSaved(v, docs, saved, k)) ==> again == Restored(bootstrap, file))
      && ((forall k: nat :: !LastRuling(v, docs, k)) ==> again == memory)
      && (forall k: nat :: LastRuling(v, docs, k) && saved[k] ==>
            && again.claimed == memory.claimed && again.version == memory.version
            && (again.emap == memory.emap <==> docs[k].entries != [] || bootstrap == Map(map[], map[])))
  {
    hide HandledAll, AppliedAll, Of, Rules;
    var s := Boot(bootstrap, file);
    var v := s.memory.version;
    HandledIsApplied(s, docs, saved);
    forall k: nat | LastSaved(v, docs, saved, k) ensures HandledAll(s, docs, saved).file == Some(docs[k]) {
      LastRulingOnFile(s, docs, saved, k);
    }
    if forall k: nat :: !LastSaved(v, docs, saved, k) {
      NothingOnFile(s, docs, saved);
    }
    if forall k: nat :: !LastRuling(v, docs, k) {
      NoneRuling(v, docs);
      NoneRules(s.memory, docs);
      assert forall k: nat :: !LastSaved(v, docs, saved, k);
    }
    forall k: nat | LastRuling(v, docs, k)
      ensures AppliedAll(s.memory, docs) == Memory(docs[k].claimed, docs[k].version, Of(docs[k].entries))
      ensures saved[k] ==> LastSaved(v, docs, saved, k)
    {
      LastRulingWins(s.memory, docs, k);
    }
    EmptyMap();
  }

  /** Where there is no last one there is none at all. */
  lemma NoneRuling(version: int, docs: seq<Config>)
    requires forall k: nat :: !LastRuling(version, docs, k)
    ensures forall k :: 0 <= k < |docs| ==> !Rules(version, docs, k)
  {
    hide Rules;
    var n := |docs|;
    while n > 0
      invariant 0 <= n <= |docs|
      invariant forall k :: n <= k < |docs| ==> !Rules(version, docs, k)
    {
      n := n - 1;
      assert !LastRuling(version, docs, n);
    }
  }

  lemma EmptyMap()
    ensures Of([]) == Map(map[], map[])
  {
  }

  /** "A restart restores the entity map" fails for a claim that lists no devices: the
      bootstrap map comes back. */
  lemma EmptyMapNotRestored(bootstrap: Map)
    requires bootstrap != Map(map[], map[])
    ensures var s := HandledAll(Boot(bootstrap, None), [Config(true, 1, [])], [true]);
      s.memory.emap == Map(map[], map[]) && Restored(bootstrap, s.file).emap == bootstrap
  {
    var docs, saved := [Config(true, 1, [])], [true];
    assert docs[..0] == [] && saved[..0] == [];
    assert HandledAll(Boot(bootstrap, None), docs, saved) == Handled(Boot(bootstrap, None), docs[0], true);
  }

  /** And a claim whose write failed is forgotten. */
  lemma UnsavedNotRestored(bootstrap: Map)
    ensures var s := HandledAll(Boot(bootstrap, None), [Config(true, 1, [])], [false]);
      s.memory.claimed && s.memory.version == 1 && Restored(bootstrap, s.file) == Memory(false, 0, bootstrap)
  {
    var docs, saved := [Config(true, 1, [])], [false];
    assert docs[..0] == [] && saved[..0] == [];
    assert HandledAll(Boot(bootstrap, None), docs, saved) == Handled(Boot(bootstrap, None), docs[0], false);
  }

  // ---- the agent's part ------------------------------------------------------------------------

  datatype Transition = Stays | Claims | Unclaims

  class GatewayConfig {
    var claimed: bool
    var configVersion: int
    var emap: Map
    var file: Option<Config>

    ghost function Now(): State reads this {
      State(Memory(claimed, configVersion, emap), file, [])
    }

    constructor (bootstrap: Map, file: Option<Config>)
      ensures Now() == Boot(bootstrap, file)
    {
      claimed, configVersion, emap, this.file := false, 0, bootstrap, file;
      new;
      RestoreConfigState();
    }

    method RestoreConfigState()
      modifies this
      ensures Now().memory == if old(file).None? then old(Now()).memory else Restored(old(emap), old(file))
      ensures file == old(file)
    {
      if file.None? {
        return;
      }
      claimed := file.value.claimed;
      configVersion := file.value.version;
      if |file.value.entries| > 0 {
        emap := New(file.value.entries);
      }
    }

    method SaveConfigState(cfg: Config, saved: bool)
      modifies `file
      ensures file == if saved then Some(cfg) else old(file)
    {
      if saved {
        file := Some(cfg);
      }
    }

    /** None is a document that does not decode. */
    method HandleConfig(msg: Option<Config>, saved: bool) returns (t: Transition)
      modifies this
      ensures Now() == if msg.None? then old(Now()) else Handled(old(Now()), msg.value, saved)
      ensures t == if claimed == old(claimed) then Stays else if claimed then Claims else Unclaims
    {
      if msg.None? || msg.value.version < configVersion {
        return Stays;
      }
      var cfg, wasClaimed := msg.value, claimed;
      claimed := cfg.claimed;
      configVersion := cfg.version;
      emap := New(cfg.entries);
      SaveConfigState(cfg, saved);
      return if cfg.claimed && !wasClaimed then Claims else if !cfg.claimed && wasClaimed then Unclaims else Stays;
    }
  }
}
