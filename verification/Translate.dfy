/** From desired documents to Home Assistant service calls (internal/agent/translate.go),
    and what those calls do to a home whose entities are records of fields. */
module Translate {
  import opened Common

  datatype Json =
    | Null
    | Flag(flag: bool)
    | Number(number: real)
    | Text(text: string)
    | List(items: seq<Json>)
    | Object(fields: map<string, Json>)

  type Fields = map<string, Json>

  datatype ServiceCall = ServiceCall(domain: string, service: string, data: Fields)

  // ---- translation -------------------------------------------------------------

  /** The part of an entity id before its first dot, or all of it. */
  function DomainOf(entity: string): string {
    if entity == "" || entity[0] == '.' then "" else [entity[0]] + DomainOf(entity[1..])
  }

  function StateOf(doc: Fields): string {
    if "state" in doc && doc["state"].Text? then doc["state"].text else ""
  }

  function AttributesOf(doc: Fields): Fields {
    if "attributes" in doc && doc["attributes"].Object? then doc["attributes"].fields else map[]
  }

  function Base(entity: string): Fields {
    map["entity_id" := Text(entity)]
  }

  /** The attributes among these keys that the document has. */
  function Copied(attrs: Fields, keys: seq<string>): Fields {
    map k | k in attrs && k in keys :: attrs[k]
  }

  const LIGHT_KEYS := ["brightness", "brightness_pct", "color_temp", "color_temp_kelvin", "rgb_color", "hs_color",
                       "xy_color", "color_name", "effect", "transition"]
  const FAN_KEYS := ["percentage", "preset_mode"]
  const RANGE_KEYS := ["target_temp_high", "target_temp_low"]

  function OnOff(domain: string, entity: string, state: string): seq<ServiceCall> {
    if state == "" then []
    else [ServiceCall(domain, if state == "off" then "turn_off" else "turn_on", Base(entity))]
  }

  function Light(entity: string, state: string, attrs: Fields): seq<ServiceCall> {
    if state == "" then []
    else if state == "off" then [ServiceCall("light", "turn_off", Base(entity))]
    else [ServiceCall("light", "turn_on", Base(entity) + Copied(attrs, LIGHT_KEYS))]
  }

  function Fan(entity: string, state: string, attrs: Fields): seq<ServiceCall> {
    if state == "" then
      if "percentage" in attrs
      then [ServiceCall("fan", "set_percentage", Base(entity) + Copied(attrs, ["percentage"]))] else []
    else if state == "off" then [ServiceCall("fan", "turn_off", Base(entity))]
    else [ServiceCall("fan", "turn_on", Base(entity) + Copied(attrs, FAN_KEYS))]
  }

  function Lock(entity: string, state: string): seq<ServiceCall> {
    if state == "locked" then [ServiceCall("lock", "lock", Base(entity))]
    else if state == "unlocked" then [ServiceCall("lock", "unlock", Base(entity))]
    else []
  }

  function Cover(entity: string, state: string, attrs: Fields): seq<ServiceCall> {
    if "position" in attrs
    then [ServiceCall("cover", "set_cover_position", Base(entity)["position" := attrs["position"]])]
    else if state == "open" then [ServiceCall("cover", "open_cover", Base(entity))]
    else if state == "closed" then [ServiceCall("cover", "close_cover", Base(entity))]
    else []
  }

  function Climate(entity: string, state: string, attrs: Fields): seq<ServiceCall> {
    (if state == "" then []
     else [ServiceCall("climate", "set_hvac_mode", Base(entity)["hvac_mode" := Text(state)])])
    + (if "temperature" !in attrs then []
       else [ServiceCall("climate", "set_temperature",
                         Base(entity)["temperature" := attrs["temperature"]] + Copied(attrs, RANGE_KEYS))])
  }

  function PlayerService(state: string): Option<string> {
    if state == "off" then Some("turn_off")
    else if state == "on" || state == "idle" then Some("turn_on")
    else if state == "playing" then Some("media_play")
    else if state == "paused" then Some("media_pause")
    else None
  }

  function MediaPlayer(entity: string, state: string, attrs: Fields): seq<ServiceCall> {
    (var service := PlayerService(state);
     if service.None? then [] else [ServiceCall("media_player", service.value, Base(entity))])
    + (if "volume_level" !in attrs then []
       else [ServiceCall("media_player", "volume_set", Base(entity)["volume_level" := attrs["volume_level"]])])
  }

  const DOMAINS := {"light", "switch", "fan", "lock", "cover", "climate", "media_player"}

  /** The service calls that realize a desired document for an entity, in order. */
  function Desired(entity: string, doc: Fields): seq<ServiceCall> {
    var domain, state, attrs := DomainOf(entity), StateOf(doc), AttributesOf(doc);
    if domain == "light" then Light(entity, state, attrs)
    else if domain == "switch" then OnOff("switch", entity, state)
    else if domain == "fan" then Fan(entity, state, attrs)
    else if domain == "lock" then Lock(entity, state)
    else if domain == "cover" then Cover(entity, state, attrs)
    else if domain == "climate" then Climate(entity, state, attrs)
    else if domain == "media_player" then MediaPlayer(entity, state, attrs)
    else OnOff("homeassistant", entity, state)
  }

  // ---- Home Assistant as an overwriter of fields ---------------------------------

  /** Each entity's fields as they were last set. */
  type Home = map<string, Fields>

  function FieldsOf(home: Home, entity: string): Fields {
    if entity in home then home[entity] else map[]
  }

  function Overwrite(home: Home, entity: string, fields: Fields): Home {
    home[entity := FieldsOf(home, entity) + fields]
  }

  /** The state that a service is named after. */
  function StateSet(service: string): Fields {
    if service in {"turn_on", "turn_off", "lock", "unlock", "open_cover", "close_cover", "media_play", "media_pause"}
    then map["state" := Text(
      match service
      case "turn_on" => "on"
      case "turn_off" => "off"
      case "lock" => "locked"
      case "unlock" => "unlocked"
      case "open_cover" => "open"
      case "close_cover" => "closed"
      case "media_play" => "playing"
      case _ => "paused")]
    else map[]
  }

  /** The fields that a call sets: those its service is named after, and its
      parameters. A thermostat's state is its mode. */
  function Writes(call: ServiceCall): Fields {
    var params := call.data - {"entity_id"};
    if call.service == "set_hvac_mode" then
      if "hvac_mode" in params then map["state" := params["hvac_mode"]] else map[]
    else StateSet(call.service) + params
  }

  /** A call reaches the entity it names, if its domain is that entity's or the
      general one. */
  predicate Reaches(call: ServiceCall, entity: string) {
    "entity_id" in call.data && call.data["entity_id"] == Text(entity)
    && (call.domain == DomainOf(entity) || call.domain == "homeassistant")
  }

  function Perform(home: Home, call: ServiceCall): Home {
    if "entity_id" in call.data && call.data["entity_id"].Text? && Reaches(call, call.data["entity_id"].text)
    then Overwrite(home, call.data["entity_id"].text, Writes(call)) else home
  }

  function PerformAll(home: Home, calls: seq<ServiceCall>): Home
    decreases |calls|
  {
    if calls == [] then home else PerformAll(Perform(home, calls[0]), calls[1..])
  }

  // ---- what a document asks for ---------------------------------------------------

  /** The state that a document asks of an entity of this domain, if any. */
  function IntendedState(domain: string, state: string, attrs: Fields): Option<string> {
    match domain
    case "lock" => if state in {"locked", "unlocked"} then Some(state) else None
    case "cover" => if state in {"open", "closed"} && "position" !in attrs then Some(state) else None
    case "climate" => if state == "" then None else Some(state)
    case "media_player" =>
      if state in {"off", "on", "playing", "paused"} then Some(state) else if state == "idle" then Some("on") else None
    case _ => if state == "" then None else if state == "off" then Some("off") else Some("on")
  }

  /** The attributes that a document can set on an entity of this domain. */
  function IntendedKeys(domain: string, state: string, attrs: Fields): seq<string> {
    match domain
    case "light" => if state in {"", "off"} then [] else LIGHT_KEYS
    case "fan" => if state == "off" then [] else if state == "" then ["percentage"] else FAN_KEYS
    case "cover" => ["position"]
    case "climate" => if "temperature" in attrs then ["temperature"] + RANGE_KEYS else []
    case "media_player" => ["volume_level"]
    case _ => []
  }

  /** The fields that a document addresses on an entity, with the values it asks for. */
  function Intended(entity: string, doc: Fields): Fields {
    var domain, state, attrs := DomainOf(entity), StateOf(doc), AttributesOf(doc);
    var target := IntendedState(domain, state, attrs);
    (if target.None? then map[] else map["state" := Text(target.value)])
    + Copied(attrs, IntendedKeys(domain, state, attrs))
  }

  // ---- every call is for the mapped entity ------------------------------------------

  predicate For(call: ServiceCall, entity: string) {
    && "entity_id" in call.data && call.data["entity_id"] == Text(entity)
    && call.domain == (if DomainOf(entity) in DOMAINS then DomainOf(entity) else "homeassistant")
  }

  /** Whatever the document says, each call names exactly the mapped entity, in
      the entity's own domain or, where that has no capabilities, the general one. */
  lemma OnlyTheMappedEntity(entity: string, doc: Fields, i: nat)
    requires i < |Desired(entity, doc)|
    ensures For(Desired(entity, doc)[i], entity)
  {
    hide DomainOf, StateOf, AttributesOf, Copied;
    var attrs := AttributesOf(doc);
    KeepsEntity(entity, attrs, LIGHT_KEYS);
    KeepsEntity(entity, attrs, FAN_KEYS);
    KeepsEntity(entity, attrs, RANGE_KEYS);
    KeepsEntity(entity, attrs, ["percentage"]);
  }

  lemma KeepsEntity(entity: string, attrs: Fields, keys: seq<string>)
    requires "entity_id" !in keys
    ensures "entity_id" !in Copied(attrs, keys)
  {
  }

  // ---- the calls do what the document asks -------------------------------------------

  /** The fields that a list of calls sets, one after the other. */
  ghost function AllWrites(calls: seq<ServiceCall>): Fields {
    if calls == [] then map[] else Writes(calls[0]) + AllWrites(calls[1..])
  }

  lemma OverwriteTwice(home: Home, entity: string, first: Fields, second: Fields)
    ensures Overwrite(Overwrite(home, entity, first), entity, second) == Overwrite(home, entity, first + second)
  {
    assert FieldsOf(home, entity) + first + second == FieldsOf(home, entity) + (first + second);
  }

  lemma {:induction false} PerformedAt(home: Home, calls: seq<ServiceCall>, entity: string)
    requires forall call :: call in calls ==> For(call, entity)
    ensures PerformAll(home, calls) == if calls == [] then home else Overwrite(home, entity, AllWrites(calls))
    decreases |calls|
  {
    hide Writes, DomainOf, Overwrite;
    if calls != [] {
      assert For(calls[0], entity);
      PerformedAt(Perform(home, calls[0]), calls[1..], entity);
      if calls[1..] != [] {
        OverwriteTwice(home, entity, Writes(calls[0]), AllWrites(calls[1..]));
      } else {
        assert AllWrites(calls) == Writes(calls[0]);
      }
    }
  }

  lemma OneCall(call: ServiceCall)
    ensures AllWrites([call]) == Writes(call)
  {
    assert [call][1..] == [];
  }

  lemma TwoCalls(call: ServiceCall, next: ServiceCall)
    ensures AllWrites([call] + [next]) == Writes(call) + Writes(next)
  {
    OneCall(next);
    assert ([call] + [next])[1..] == [next];
  }

  lemma ParamsAreWrites(entity: string, fields: Fields, domain: string, service: string)
    requires "entity_id" !in fields && service != "set_hvac_mode"
    ensures Writes(ServiceCall(domain, service, Base(entity) + fields)) == StateSet(service) + fields
  {
    assert (Base(entity) + fields) - {"entity_id"} == fields;
  }

  lemma LightWrites(entity: string, state: string, attrs: Fields)
    ensures AllWrites(Light(entity, state, attrs)) ==
      (if state == "" then map[] else map["state" := Text(if state == "off" then "off" else "on")])
      + Copied(attrs, if state in {"", "off"} then [] else LIGHT_KEYS)
  {
    if state == "off" {
      OneCall(ServiceCall("light", "turn_off", Base(entity)));
    } else if state != "" {
      OneCall(ServiceCall("light", "turn_on", Base(entity) + Copied(attrs, LIGHT_KEYS)));
      ParamsAreWrites(entity, Copied(attrs, LIGHT_KEYS), "light", "turn_on");
    }
  }

  lemma OnOffWrites(domain: string, entity: string, state: string)
    ensures AllWrites(OnOff(domain, entity, state)) ==
      if state == "" then map[] else map["state" := Text(if state == "off" then "off" else "on")]
  {
    OneCall(ServiceCall(domain, "turn_off", Base(entity)));
    OneCall(ServiceCall(domain, "turn_on", Base(entity)));
  }

  lemma FanWrites(entity: string, state: string, attrs: Fields)
    ensures AllWrites(Fan(entity, state, attrs)) ==
      (if state == "" then map[] else map["state" := Text(if state == "off" then "off" else "on")])
      + Copied(attrs, if state == "off" then [] else if state == "" then ["percentage"] else FAN_KEYS)
  {
    if state == "" {
      OneCall(ServiceCall("fan", "set_percentage", Base(entity) + Copied(attrs, ["percentage"])));
      ParamsAreWrites(entity, Copied(attrs, ["percentage"]), "fan", "set_percentage");
    } else if state == "off" {
      OneCall(ServiceCall("fan", "turn_off", Base(entity)));
    } else {
      OneCall(ServiceCall("fan", "turn_on", Base(entity) + Copied(attrs, FAN_KEYS)));
      ParamsAreWrites(entity, Copied(attrs, FAN_KEYS), "fan", "turn_on");
    }
  }

  lemma LockWrites(entity: string, state: string)
    ensures AllWrites(Lock(entity, state)) ==
            if state in {"locked", "unlocked"} then map["state" := Text(state)] else map[]
  {
    OneCall(ServiceCall("lock", "lock", Base(entity)));
    OneCall(ServiceCall("lock", "unlock", Base(entity)));
  }

  lemma CoverWrites(entity: string, state: string, attrs: Fields)
    ensures AllWrites(Cover(entity, state, attrs)) ==
      (if state in {"open", "closed"} && "position" !in attrs then map["state" := Text(state)] else map[])
      + Copied(attrs, ["position"])
  {
    if "position" in attrs {
      var fields := map["position" := attrs["position"]];
      assert Base(entity)["position" := attrs["position"]] == Base(entity) + fields;
      OneCall(ServiceCall("cover", "set_cover_position", Base(entity) + fields));
      ParamsAreWrites(entity, fields, "cover", "set_cover_position");
    } else {
      OneCall(ServiceCall("cover", "open_cover", Base(entity)));
      OneCall(ServiceCall("cover", "close_cover", Base(entity)));
    }
  }

  lemma ModeWrites(entity: string, state: string)
    ensures Writes(ServiceCall("climate", "set_hvac_mode", Base(entity)["hvac_mode" := Text(state)]))
         == map["state" := Text(state)]
  {
  }

  lemma TemperatureWrites(entity: string, attrs: Fields)
    requires "temperature" in attrs
    ensures Writes(ServiceCall("climate", "set_temperature",
                               Base(entity)["temperature" := attrs["temperature"]] + Copied(attrs, RANGE_KEYS)))
            == Copied(attrs, ["temperature"] + RANGE_KEYS)
  {
    hide Writes;
    var fields := Copied(attrs, ["temperature"] + RANGE_KEYS);
    assert Base(entity)["temperature" := attrs["temperature"]] + Copied(attrs, RANGE_KEYS) == Base(entity) + fields;
    ParamsAreWrites(entity, fields, "climate", "set_temperature");
  }

  lemma ClimateWrites(entity: string, state: string, attrs: Fields)
    ensures AllWrites(Climate(entity, state, attrs)) ==
      (if state == "" then map[] else map["state" := Text(state)])
      + Copied(attrs, if "temperature" in attrs then ["temperature"] + RANGE_KEYS else [])
  {
    hide Writes, Copied, AllWrites;
    var mode := ServiceCall("climate", "set_hvac_mode", Base(entity)["hvac_mode" := Text(state)]);
    ModeWrites(entity, state);
    OneCall(mode);
    NoCallsNoWrites();
    NothingCopied(attrs);
    if "temperature" in attrs {
      var call := ServiceCall("climate", "set_temperature",
                              Base(entity)["temperature" := attrs["temperature"]] + Copied(attrs, RANGE_KEYS));
      TemperatureWrites(entity, attrs);
      OneCall(call);
      TwoCalls(mode, call);
      assert Climate(entity, state, attrs) == if state == "" then [call] else [mode] + [call];
    } else {
      assert Climate(entity, state, attrs) == if state == "" then [] else [mode];
    }
  }

  lemma NoStateSet(service: string)
    requires service in {"set_temperature", "volume_set"}
    ensures StateSet(service) == map[]
  {
  }

  lemma PlayerStateSet(state: string)
    requires PlayerService(state).Some?
    ensures StateSet(PlayerService(state).value) == map["state" := Text(if state == "idle" then "on" else state)]
    ensures PlayerService(state).value != "set_hvac_mode"
    ensures state in {"off", "on", "playing", "paused", "idle"}
  {
  }

  lemma MediaPlayerWrites(entity: string, state: string, attrs: Fields)
    ensures AllWrites(MediaPlayer(entity, state, attrs)) ==
      (if PlayerService(state).None? then map[] else map["state" := Text(if state == "idle" then "on" else state)])
      + Copied(attrs, ["volume_level"])
  {
    hide Writes, StateSet, PlayerService;
    var service := PlayerService(state);
    var volume := if "volume_level" in attrs then map["volume_level" := attrs["volume_level"]] else map[];
    var call := ServiceCall("media_player", "volume_set", Base(entity) + volume);
    ParamsAreWrites(entity, volume, "media_player", "volume_set");
    NoStateSet("volume_set");
    OneCall(call);
    assert Copied(attrs, ["volume_level"]) == volume;
    assert "volume_level" in attrs ==> Base(entity)["volume_level" := attrs["volume_level"]] == Base(entity) + volume;
    if service.Some? {
      var play := ServiceCall("media_player", service.value, Base(entity));
      PlayerStateSet(state);
      ParamsAreWrites(entity, map[], "media_player", service.value);
      assert Base(entity) + map[] == Base(entity);
      OneCall(play);
      TwoCalls(play, call);
    }
  }

  lemma NothingCopied(attrs: Fields)
    ensures Copied(attrs, []) == map[]
  {
  }

  /** For every domain and document, the calls together set exactly the fields
      that the document addresses, to the values it asks for. */
  lemma CallsMeanIntended(entity: string, doc: Fields)
    ensures AllWrites(Desired(entity, doc)) == Intended(entity, doc)
  {
    hide DomainOf, StateOf, AttributesOf, AllWrites, Copied, Light, Fan, Lock, Cover, Climate, MediaPlayer, OnOff;
    var domain, state, attrs := DomainOf(entity), StateOf(doc), AttributesOf(doc);
    NothingCopied(attrs);
    if domain == "light" {
      LightWrites(entity, state, attrs);
    } else if domain == "fan" {
      FanWrites(entity, state, attrs);
    } else if domain == "lock" {
      LockWrites(entity, state);
    } else if domain == "cover" {
      CoverWrites(entity, state, attrs);
    } else if domain == "climate" {
      ClimateWrites(entity, state, attrs);
    } else if domain == "media_player" {
      MediaPlayerWrites(entity, state, attrs);
    } else {
      OnOffWrites(if domain == "switch" then "switch" else "homeassistant", entity, state);
    }
  }

  // ---- partial applies and retries ------------------------------------------------------

  /** Performing a document's calls leaves every field that it addresses at the
      value it asks for, and every other field of every entity as it was. */
  lemma Realized(home: Home, entity: string, doc: Fields)
    ensures var after := PerformAll(home, Desired(entity, doc));
      && FieldsOf(after, entity) == FieldsOf(home, entity) + Intended(entity, doc)
      && (forall other :: other != entity ==> FieldsOf(after, other) == FieldsOf(home, other))
  {
    hide Desired, Intended, For, AllWrites, PerformAll;
    var calls := Desired(entity, doc);
    AllForEntity(entity, doc);
    PerformedAt(home, calls, entity);
    CallsMeanIntended(entity, doc);
    if calls == [] {
      NoCallsNoWrites();
    }
  }

  lemma NoCallsNoWrites()
    ensures AllWrites([]) == map[]
  {
  }

  lemma AllForEntity(entity: string, doc: Fields)
    ensures forall call :: call in Desired(entity, doc) ==> For(call, entity)
  {
    hide Desired, For;
    forall call | call in Desired(entity, doc) ensures For(call, entity) {
      var i :| 0 <= i < |Desired(entity, doc)| && Desired(entity, doc)[i] == call;
      OnlyTheMappedEntity(entity, doc, i);
    }
  }

  lemma {:induction false} PrefixWrites(calls: seq<ServiceCall>, k: nat)
    requires k <= |calls|
    ensures AllWrites(calls[..k]).Keys <= AllWrites(calls).Keys
    decreases k
  {
    hide Writes;
    if k > 0 {
      PrefixWrites(calls[1..], k - 1);
      assert calls[..k][1..] == calls[1..][..k - 1];
    }
  }

  ghost predicate AtMost(breaks: seq<nat>, n: nat) {
    forall i :: 0 <= i < |breaks| ==> breaks[i] <= n
  }

  /** Deliveries of a document each of which broke off after some of its calls. */
  ghost function Attempts(home: Home, calls: seq<ServiceCall>, breaks: seq<nat>): Home
    requires AtMost(breaks, |calls|)
    decreases |breaks|
  {
    if breaks == [] then home else Attempts(PerformAll(home, calls[..breaks[0]]), calls, breaks[1..])
  }

  lemma PartialThenFull(home: Home, entity: string, calls: seq<ServiceCall>, k: nat)
    requires k <= |calls| && forall call :: call in calls ==> For(call, entity)
    ensures PerformAll(PerformAll(home, calls[..k]), calls) == PerformAll(home, calls)
  {
    hide For, AllWrites, PerformAll, Overwrite;
    var partial := calls[..k];
    assert forall call :: call in partial ==> call in calls;
    PerformedAt(home, partial, entity);
    PerformedAt(home, calls, entity);
    PerformedAt(PerformAll(home, partial), calls, entity);
    if partial != [] {
      PrefixWrites(calls, k);
      OverwriteTwice(home, entity, AllWrites(partial), AllWrites(calls));
      assert AllWrites(partial) + AllWrites(calls) == AllWrites(calls);
    }
  }

  /** However often a document's apply broke off, and wherever, the first full
      retry leaves the home as one clean apply would have. */
  lemma {:induction false} PartialApplyThenRetry(home: Home, entity: string, doc: Fields, breaks: seq<nat>)
    requires AtMost(breaks, |Desired(entity, doc)|)
    ensures var calls := Desired(entity, doc);
      PerformAll(Attempts(home, calls, breaks), calls) == PerformAll(home, calls)
    decreases |breaks|
  {
    hide Desired, For, PerformAll;
    var calls := Desired(entity, doc);
    if breaks != [] {
      AllForEntity(entity, doc);
      PartialThenFull(home, entity, calls, breaks[0]);
      PartialApplyThenRetry(PerformAll(home, calls[..breaks[0]]), entity, doc, breaks[1..]);
    }
  }

  // ---- the translators ------------------------------------------------------------------

  method Passthrough(dst: Fields, attrs: Fields, keys: seq<string>) returns (r: Fields)
    ensures r == dst + Copied(attrs, keys)
  {
    r := dst;
    for i := 0 to |keys|
      invariant r == dst + Copied(attrs, keys[..i])
    {
      if keys[i] in attrs {
        r := r[keys[i] := attrs[keys[i]]];
      }
      assert keys[..i + 1] == keys[..i] + [keys[i]];
    }
    assert keys[..|keys|] == keys;
  }

  method TranslateLight(entity: string, state: string, attrs: Fields) returns (r: seq<ServiceCall>)
    ensures r == Light(entity, state, attrs)
  {
    if state == "" {
      return [];
    }
    if state == "off" {
      return [ServiceCall("light", "turn_off", Base(entity))];
    }
    var data := Passthrough(Base(entity), attrs, LIGHT_KEYS);
    return [ServiceCall("light", "turn_on", data)];
  }

  method TranslateFan(entity: string, state: string, attrs: Fields) returns (r: seq<ServiceCall>)
    ensures r == Fan(entity, state, attrs)
  {
    if state == "" {
      if "percentage" in attrs {
        var data := Passthrough(Base(entity), attrs, ["percentage"]);
        return [ServiceCall("fan", "set_percentage", data)];
      }
      return [];
    }
    if state == "off" {
      return [ServiceCall("fan", "turn_off", Base(entity))];
    }
    var data := Passthrough(Base(entity), attrs, FAN_KEYS);
    return [ServiceCall("fan", "turn_on", data)];
  }

  method TranslateClimate(entity: string, state: string, attrs: Fields) returns (calls: seq<ServiceCall>)
    ensures calls == Climate(entity, state, attrs)
  {
    calls := [];
    if state != "" {
      calls := calls + [ServiceCall("climate", "set_hvac_mode", Base(entity)["hvac_mode" := Text(state)])];
    }
    if "temperature" in attrs {
      var data := Passthrough(Base(entity)["temperature" := attrs["temperature"]], attrs, RANGE_KEYS);
      calls := calls + [ServiceCall("climate", "set_temperature", data)];
    }
  }

  method TranslateMediaPlayer(entity: string, state: string, attrs: Fields) returns (calls: seq<ServiceCall>)
    ensures calls == MediaPlayer(entity, state, attrs)
  {
    calls := [];
    match state {
      case "off" => calls := calls + [ServiceCall("media_player", "turn_off", Base(entity))];
      case "on" => calls := calls + [ServiceCall("media_player", "turn_on", Base(entity))];
      case "idle" => calls := calls + [ServiceCall("media_player", "turn_on", Base(entity))];
      case "playing" => calls := calls + [ServiceCall("media_player", "media_play", Base(entity))];
      case "paused" => calls := calls + [ServiceCall("media_player", "media_pause", Base(entity))];
      case _ =>
    }
    if "volume_level" in attrs {
      var data := Base(entity)["volume_level" := attrs["volume_level"]];
      calls := calls + [ServiceCall("media_player", "volume_set", data)];
    }
  }

  /** The capability table: a domain's translator, or plain on and off. */
  method TranslateDesired(entity: string, doc: Fields) returns (calls: seq<ServiceCall>)
    ensures calls == Desired(entity, doc)
  {
    hide DomainOf, StateOf, AttributesOf, Light, Fan, Climate, MediaPlayer;
    var domain, state, attrs := DomainOf(entity), StateOf(doc), AttributesOf(doc);
    match domain {
      case "light" => calls := TranslateLight(entity, state, attrs);
      case "switch" => calls := OnOff("switch", entity, state);
      case "fan" => calls := TranslateFan(entity, state, attrs);
      case "lock" => calls := Lock(entity, state);
      case "cover" => calls := Cover(entity, state, attrs);
      case "climate" => calls := TranslateClimate(entity, state, attrs);
      case "media_player" => calls := TranslateMediaPlayer(entity, state, attrs);
      case _ => calls := OnOff("homeassistant", entity, state);
    }
  }
}
