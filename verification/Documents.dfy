/** What a desired document does to an entity, told by the document itself and the
    entity's name (internal/agent/translate.go, docs/mqtt-contract.md). */
module Documents {
  import opened Common
  import opened Translate

  ghost predicate AsksState(doc: Fields, state: string) {
    state != "" && "state" in doc && doc["state"] == Text(state)
  }

  /** There is no state in it, or one that is no text, or an empty one. */
  ghost predicate AsksNoState(doc: Fields) {
    forall state :: !AsksState(doc, state)
  }

  ghost predicate AsksAttribute(doc: Fields, key: string, value: Json) {
    "attributes" in doc && doc["attributes"].Object? && key in doc["attributes"].fields
    && doc["attributes"].fields[key] == value
  }

  ghost predicate Asks(doc: Fields, key: string) {
    exists value :: AsksAttribute(doc, key, value)
  }

  ghost predicate Untouched(before: Fields, after: Fields, key: string) {
    (key in after <==> key in before) && (key in after ==> after[key] == before[key])
  }

  /** The entity has this state, if there is one, and of the attributes among `keys` the
      values that the document has for them; everything else of it is as before. */
  ghost predicate Shows(before: Fields, after: Fields, doc: Fields, state: Option<string>, keys: set<string>) {
    && (if state.Some? then "state" in after && after["state"] == Text(state.value)
        else Untouched(before, after, "state"))
    && (forall key, value :: key in keys && AsksAttribute(doc, key, value) ==> key in after && after[key] == value)
    && (forall key :: key != "state" && !(key in keys && Asks(doc, key)) ==> Untouched(before, after, key))
  }

  ghost function Before(home: Home, entity: string): Fields {
    FieldsOf(home, entity)
  }

  /** The entity once all calls of the document are performed. */
  ghost function After(home: Home, entity: string, doc: Fields): Fields {
    FieldsOf(PerformAll(home, Desired(entity, doc)), entity)
  }

  lemma {:induction false} DomainOfName(domain: string, name: string)
    requires '.' !in domain
    ensures DomainOf(domain + "." + name) == domain
  {
    if domain == "" {
      assert domain + "." + name == "." + name;
    } else {
      assert (domain + "." + name)[1..] == domain[1..] + "." + name;
      DomainOfName(domain[1..], name);
    }
  }

  /** What the translation reads of a document. */
  lemma ReadsDocument(doc: Fields)
    ensures StateOf(doc) == "" <==> AsksNoState(doc)
    ensures forall state :: state != "" ==> (StateOf(doc) == state <==> AsksState(doc, state))
    ensures forall key :: key in AttributesOf(doc) <==> Asks(doc, key)
    ensures forall key, value :: AsksAttribute(doc, key, value) <==>
              key in AttributesOf(doc) && AttributesOf(doc)[key] == value
  {
    assert StateOf(doc) != "" ==> AsksState(doc, StateOf(doc));
    forall key ensures key in AttributesOf(doc) <==> Asks(doc, key) {
      if key in AttributesOf(doc) {
        assert AsksAttribute(doc, key, AttributesOf(doc)[key]);
      }
    }
  }

  /** What a document addresses is what the entity shows. */
  lemma ShowsWhatIsMeant(
      home: Home, entity: string, doc: Fields, state: Option<string>, keys: seq<string>, among: set<string>)
    requires "state" !in keys && forall key :: key in keys <==> key in among
    requires Intended(entity, doc) ==
      (if state.None? then map[] else map["state" := Text(state.value)]) + Copied(AttributesOf(doc), keys)
    ensures Shows(Before(home, entity), After(home, entity, doc), doc, state, among)
  {
    hide Desired, PerformAll, Intended, StateOf, AttributesOf, DomainOf, AsksAttribute, Asks;
    Realized(home, entity, doc);
    ReadsDocument(doc);
  }

  /** What a light can be told when it is switched on. */
  function Recognized(): set<string> {
    {"brightness", "brightness_pct", "color_temp", "color_temp_kelvin", "rgb_color", "hs_color", "xy_color",
     "color_name", "effect", "transition"}
  }

  lemma KeysRecognized()
    ensures "state" !in LIGHT_KEYS && forall key :: key in LIGHT_KEYS <==> key in Recognized()
  {
  }

  /** A light that is switched on takes every recognized setting along; one that is
      switched off takes none. */
  lemma LightDocument(home: Home, name: string, doc: Fields)
    ensures var entity := "light." + name;
      var before, after := Before(home, entity), After(home, entity, doc);
      && (AsksState(doc, "off") ==> Shows(before, after, doc, Some("off"), {}))
      && (AsksNoState(doc) ==> Shows(before, after, doc, None, {}))
      && (!AsksState(doc, "off") && !AsksNoState(doc) ==>
            Shows(before, after, doc, Some("on"), Recognized()))
  {
    hide Shows, Before, After, AsksState, AsksNoState, StateOf, AttributesOf, DomainOf, Copied, Recognized;
    var entity := "light." + name;
    assert entity == "light" + "." + name;
    DomainOfName("light", name);
    ReadsDocument(doc);
    if AsksNoState(doc) || AsksState(doc, "off") {
      ShowsWhatIsMeant(home, entity, doc, if AsksNoState(doc) then None else Some("off"), [], {});
    } else {
      KeysRecognized();
      ShowsWhatIsMeant(home, entity, doc, Some("on"), LIGHT_KEYS, Recognized());
    }
  }

  /** A fan's speed can be set with or without switching it on. */
  lemma FanDocument(home: Home, name: string, doc: Fields)
    ensures var entity := "fan." + name;
      var before, after := Before(home, entity), After(home, entity, doc);
      && (AsksState(doc, "off") ==> Shows(before, after, doc, Some("off"), {}))
      && (AsksNoState(doc) ==> Shows(before, after, doc, None, {"percentage"}))
      && (!AsksState(doc, "off") && !AsksNoState(doc) ==>
            Shows(before, after, doc, Some("on"), {"percentage", "preset_mode"}))
  {
    hide Shows, Before, After, AsksState, AsksNoState, StateOf, AttributesOf, DomainOf, Copied;
    var entity := "fan." + name;
    assert entity == "fan" + "." + name;
    DomainOfName("fan", name);
    ReadsDocument(doc);
    var state := if AsksNoState(doc) then None else Some(if AsksState(doc, "off") then "off" else "on");
    ShowsWhatIsMeant(home, entity, doc, state,
                     if state.None? then ["percentage"] else if state == Some("on") then FAN_KEYS else [],
                     if state.None? then {"percentage"}
                     else if state == Some("on") then {"percentage", "preset_mode"} else {});
  }

  lemma LockDocument(home: Home, name: string, doc: Fields)
    ensures var entity := "lock." + name;
      var before, after := Before(home, entity), After(home, entity, doc);
      && (AsksState(doc, "locked") ==> Shows(before, after, doc, Some("locked"), {}))
      && (AsksState(doc, "unlocked") ==> Shows(before, after, doc, Some("unlocked"), {}))
      && (!AsksState(doc, "locked") && !AsksState(doc, "unlocked") ==> Shows(before, after, doc, None, {}))
  {
    hide Shows, Before, After, AsksState, AsksNoState, StateOf, AttributesOf, DomainOf, Copied;
    var entity := "lock." + name;
    assert entity == "lock" + "." + name;
    DomainOfName("lock", name);
    ReadsDocument(doc);
    var state := if AsksState(doc, "locked") then Some("locked")
                 else if AsksState(doc, "unlocked") then Some("unlocked") else None;
    ShowsWhatIsMeant(home, entity, doc, state, [], {});
  }

  /** A position wins over open and closed. */
  lemma CoverDocument(home: Home, name: string, doc: Fields)
    ensures var entity := "cover." + name;
      var before, after := Before(home, entity), After(home, entity, doc);
      if Asks(doc, "position") then Shows(before, after, doc, None, {"position"})
      else
        && (AsksState(doc, "open") ==> Shows(before, after, doc, Some("open"), {}))
        && (AsksState(doc, "closed") ==> Shows(before, after, doc, Some("closed"), {}))
        && (!AsksState(doc, "open") && !AsksState(doc, "closed") ==> Shows(before, after, doc, None, {}))
  {
    hide Shows, Before, After, AsksState, AsksNoState, Asks, StateOf, AttributesOf, DomainOf;
    var entity := "cover." + name;
    assert entity == "cover" + "." + name;
    DomainOfName("cover", name);
    ReadsDocument(doc);
    var attrs := AttributesOf(doc);
    if Asks(doc, "position") {
      ShowsWhatIsMeant(home, entity, doc, None, ["position"], {"position"});
    } else {
      assert Copied(attrs, ["position"]) == Copied(attrs, []);
      var state :=
        if AsksState(doc, "open") then Some("open") else if AsksState(doc, "closed") then Some("closed") else None;
      ShowsWhatIsMeant(home, entity, doc, state, [], {});
    }
  }

  /** The state of a thermostat is its mode, whatever that is called; a temperature takes
      the range along, and without one there is none. */
  lemma ClimateDocument(home: Home, name: string, doc: Fields)
    ensures var entity := "climate." + name;
      var before, after := Before(home, entity), After(home, entity, doc);
      var keys := if Asks(doc, "temperature") then {"temperature", "target_temp_high", "target_temp_low"} else {};
      && (forall mode :: AsksState(doc, mode) ==> Shows(before, after, doc, Some(mode), keys))
      && (AsksNoState(doc) ==> Shows(before, after, doc, None, keys))
  {
    hide Shows, Before, After, AsksState, AsksNoState, Asks, StateOf, AttributesOf, DomainOf, Copied;
    var entity := "climate." + name;
    assert entity == "climate" + "." + name;
    DomainOfName("climate", name);
    ReadsDocument(doc);
    forall mode ensures AsksState(doc, mode) ==> mode == StateOf(doc) != "" {
      StateNotEmpty(doc, mode);
    }
    var state := if AsksNoState(doc) then None else Some(StateOf(doc));
    var keys := if Asks(doc, "temperature") then {"temperature", "target_temp_high", "target_temp_low"} else {};
    ShowsWhatIsMeant(home, entity, doc, state,
                     if Asks(doc, "temperature") then ["temperature"] + RANGE_KEYS else [], keys);
  }

  lemma StateNotEmpty(doc: Fields, state: string)
    ensures AsksState(doc, state) ==> state != ""
  {
  }

  /** An idle player is one that is on. */
  lemma MediaPlayerDocument(home: Home, name: string, doc: Fields)
    ensures var entity := "media_player." + name;
      var before, after := Before(home, entity), After(home, entity, doc);
      && (forall state :: state in {"off", "on", "playing", "paused"} && AsksState(doc, state) ==>
            Shows(before, after, doc, Some(state), {"volume_level"}))
      && (AsksState(doc, "idle") ==> Shows(before, after, doc, Some("on"), {"volume_level"}))
      && ((forall state :: AsksState(doc, state) ==> state !in {"off", "on", "playing", "paused", "idle"}) ==>
            Shows(before, after, doc, None, {"volume_level"}))
  {
    hide Shows, Before, After, AsksState, AsksNoState, StateOf, AttributesOf, DomainOf, Copied;
    var entity := "media_player." + name;
    assert entity == "media_player" + "." + name;
    DomainOfName("media_player", name);
    ReadsDocument(doc);
    var asked := StateOf(doc);
    var state := if asked in {"off", "on", "playing", "paused"} then Some(asked)
                 else if asked == "idle" then Some("on") else None;
    assert asked != "" ==> AsksState(doc, asked);
    ShowsWhatIsMeant(home, entity, doc, state, ["volume_level"], {"volume_level"});
  }

  /** Switches, and everything that has no settings of its own, are on or off. */
  lemma OnOffDocument(home: Home, domain: string, name: string, doc: Fields)
    requires '.' !in domain && domain !in {"light", "fan", "lock", "cover", "climate", "media_player"}
    ensures var entity := domain + "." + name;
      var before, after := Before(home, entity), After(home, entity, doc);
      && (AsksState(doc, "off") ==> Shows(before, after, doc, Some("off"), {}))
      && (AsksNoState(doc) ==> Shows(before, after, doc, None, {}))
      && (!AsksState(doc, "off") && !AsksNoState(doc) ==> Shows(before, after, doc, Some("on"), {}))
  {
    hide Shows, Before, After, AsksState, AsksNoState, StateOf, AttributesOf, DomainOf, Copied;
    var entity := domain + "." + name;
    DomainOfName(domain, name);
    ReadsDocument(doc);
    var state := if AsksNoState(doc) then None else Some(if AsksState(doc, "off") then "off" else "on");
    ShowsWhatIsMeant(home, entity, doc, state, [], {});
  }
}
