/** The bootstrap add-on set (fleet/fleet.go) and the rule that maps an add-on
    to its full Supervisor slug. */
module Fleet {
  import opened Common

  /** `matchName` is the manifest's `match` value, `slug` its optional exact override. */
  datatype Addon = Addon(matchName: string, slug: string, repository: string, core: bool) {
    predicate Resolves(full: string) {
      if slug != "" then full == slug
      else full == matchName || HasSuffix(full, "_" + matchName)
    }
  }

  datatype Manifest = Manifest(addonRepository: string, addons: seq<Addon>) {
    /** The first add-on whose match value is m. */
    function Find(m: string): (r: Option<Addon>)
      ensures r.None? <==> forall a :: a in addons ==> a.matchName != m
      ensures r.Some? ==> r.value in addons && r.value.matchName == m
    {
      FindIn(addons, m)
    }

    function Agent(): Option<Addon> {
      Find(AGENT_MATCH)
    }
  }

  const AGENT_MATCH := "smart_home_agent"
  const BROKER_MATCH := "mosquitto"
  const ZIGBEE_MATCH := "zigbee2mqtt"

  /** fleet/release.json, the manifest embedded in the shipped binary. */
  const SHIPPED := Manifest("https://github.com/prameg/smart-home-edge", [
    Addon("mosquitto", "core_mosquitto", "", true),
    Addon("matter_server", "core_matter_server", "", true),
    Addon("zigbee2mqtt", "", "https://github.com/zigbee2mqtt/hassio-zigbee2mqtt", false),
    Addon("smart_home_agent", "", "https://github.com/prameg/smart-home-edge", false)])

  predicate HasSuffix(s: string, suffix: string) {
    |suffix| <= |s| && s[|s| - |suffix|..] == suffix
  }

  function FindIn(addons: seq<Addon>, m: string): (r: Option<Addon>)
    ensures r.None? <==> forall a :: a in addons ==> a.matchName != m
    ensures r.Some? ==> r.value in addons && r.value.matchName == m
  {
    if addons == [] then None
    else if addons[0].matchName == m then Some(addons[0])
    else FindIn(addons[1..], m)
  }

  lemma {:induction false} FindIsFirst(addons: seq<Addon>, m: string) returns (i: nat)
    requires FindIn(addons, m).Some?
    ensures i < |addons| && FindIn(addons, m) == Some(addons[i]) && addons[i].matchName == m
    ensures forall j :: 0 <= j < i ==> addons[j].matchName != m
  {
    i := 0;
    if addons[0].matchName != m {
      i := FindIsFirst(addons[1..], m);
      i := i + 1;
    }
  }

  /** The first store slug that the add-on resolves. */
  function FirstMatch(slugs: seq<string>, a: Addon): (r: Option<string>)
    ensures r.Some? ==> r.value in slugs && a.Resolves(r.value)
    ensures r.None? <==> forall s :: s in slugs ==> !a.Resolves(s)
  {
    if slugs == [] then None
    else if a.Resolves(slugs[0]) then Some(slugs[0])
    else FirstMatch(slugs[1..], a)
  }

  /** Slugs added at the end of the store never change an existing resolution. */
  lemma {:induction false} FirstMatchStable(slugs: seq<string>, more: seq<string>, a: Addon)
    requires FirstMatch(slugs, a).Some?
    ensures FirstMatch(slugs + more, a) == FirstMatch(slugs, a)
  {
    if !a.Resolves(slugs[0]) {
      assert (slugs + more)[1..] == slugs[1..] + more;
      FirstMatchStable(slugs[1..], more, a);
    }
  }

  /** Without an exact slug of its own an add-on is what the store lists by its match
      value, alone or after a repository's prefix and an underscore. */
  lemma ResolvesExactly(a: Addon, full: string)
    ensures a.slug != "" ==> (a.Resolves(full) <==> full == a.slug)
    ensures a.slug == "" ==>
              (a.Resolves(full) <==> full == a.matchName || exists prefix :: full == prefix + "_" + a.matchName)
  {
    if HasSuffix(full, "_" + a.matchName) {
      var prefix := full[..|full| - |"_" + a.matchName|];
      assert full == prefix + ("_" + a.matchName) == prefix + "_" + a.matchName;
    }
    forall prefix | full == prefix + "_" + a.matchName ensures HasSuffix(full, "_" + a.matchName) {
      assert full == prefix + ("_" + a.matchName);
      assert full[|full| - |"_" + a.matchName|..] == "_" + a.matchName;
    }
  }

  /** Of the slugs that an add-on resolves to, the store's first one counts. */
  lemma {:induction false} FirstMatchIsFirst(slugs: seq<string>, a: Addon) returns (i: nat)
    requires FirstMatch(slugs, a).Some?
    ensures i < |slugs| && FirstMatch(slugs, a) == Some(slugs[i]) && forall j :: 0 <= j < i ==> !a.Resolves(slugs[j])
  {
    hide Addon.Resolves;
    i := 0;
    if !a.Resolves(slugs[0]) {
      i := FirstMatchIsFirst(slugs[1..], a);
      i := i + 1;
    }
  }
}
