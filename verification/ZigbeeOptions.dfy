/** Pointing Zigbee2MQTT at its coordinator: the options written, and when the
    options an add-on has are enough (internal/onboard/steps.go). */
module ZigbeeOptions {
  import opened Common
  import opened World

  datatype Zigbee = Zigbee(port: string, adapter: string, baudrate: int) {
    /** An empty port means that the unit has no coordinator. */
    predicate Configured() {
      TrimSpace(port) != ""
    }
  }

  function SerialOf(current: Options): map<string, Value> {
    if "serial" in current && current["serial"].Obj? then current["serial"].fields else map[]
  }

  /** The radio settings that z asks for. */
  function RadioOf(z: Zigbee): map<string, Value> {
    map["port" := Str(z.port)]
      + (if z.adapter != "" then map["adapter" := Str(z.adapter)] else map[])
      + (if z.baudrate > 0 then map["baudrate" := Num(z.baudrate)] else map[])
  }

  /** Supervisor validates the whole options object, so everything the add-on has
      is sent back and only the radio settings change. */
  function Merged(current: Options, z: Zigbee): Options {
    current["serial" := Obj(SerialOf(current) + RadioOf(z))]
  }

  predicate SerialSatisfied(current: Options, z: Zigbee) {
    && "serial" in current && current["serial"].Obj?
    && var serial := current["serial"].fields;
    && "port" in serial && serial["port"] == Str(z.port)
    && (z.adapter != "" ==> "adapter" in serial && serial["adapter"] == Str(z.adapter))
  }

  /** Every desired option is there with the desired value. */
  predicate OptionsSatisfied(current: Options, desired: Options) {
    forall k :: k in desired ==> k in current && current[k] == desired[k]
  }

  method CopyInto(src: map<string, Value>, dst: map<string, Value>) returns (r: map<string, Value>)
    ensures r == dst + src
  {
    r := dst;
    var keys := src.Keys;
    while keys != {}
      invariant keys <= src.Keys
      invariant r == dst + map k | k in src && k !in keys :: src[k]
      decreases keys
    {
      var k :| k in keys;
      r := r[k := src[k]];
      keys := keys - {k};
    }
  }

  method SetRadio(serial: map<string, Value>, z: Zigbee) returns (r: map<string, Value>)
    ensures r == serial + RadioOf(z)
  {
    r := serial["port" := Str(z.port)];
    if z.adapter != "" {
      r := r["adapter" := Str(z.adapter)];
    }
    if z.baudrate > 0 {
      r := r["baudrate" := Num(z.baudrate)];
    }
  }

  method MergedZigbeeOptions(current: Options, z: Zigbee) returns (opts: Options)
    ensures opts == Merged(current, z)
  {
    hide RadioOf;
    opts := CopyInto(current, map[]);
    var serial: map<string, Value> := map[];
    if "serial" in current && current["serial"].Obj? {
      serial := CopyInto(current["serial"].fields, serial);
    }
    assert serial == SerialOf(current);
    serial := SetRadio(serial, z);
    opts := opts["serial" := Obj(serial)];
  }

  /** Whatever options the add-on had, the merged ones satisfy the radio check, keep
      every other option and every radio setting not asked for, and merging again
      changes nothing. */
  lemma MergeThenSatisfied(current: Options, z: Zigbee)
    ensures var m := Merged(current, z);
      && SerialSatisfied(m, z)
      && "serial" in m && m["serial"].Obj?
      && (var serial := m["serial"].fields;
          && "port" in serial && serial["port"] == Str(z.port)
          && (z.adapter != "" ==> "adapter" in serial && serial["adapter"] == Str(z.adapter))
          && (z.baudrate > 0 ==> "baudrate" in serial && serial["baudrate"] == Num(z.baudrate))
          && (forall k :: k in serial ==> k in SerialOf(current) || k in {"port", "adapter", "baudrate"})
          && ("adapter" in SerialOf(current) && z.adapter == "" ==>
                "adapter" in serial && serial["adapter"] == SerialOf(current)["adapter"])
          && ("baudrate" in SerialOf(current) && z.baudrate <= 0 ==>
                "baudrate" in serial && serial["baudrate"] == SerialOf(current)["baudrate"]))
      && m.Keys == current.Keys + {"serial"}
      && (forall k :: k in current && k != "serial" ==> m[k] == current[k])
      && (forall k :: k in SerialOf(current) && k !in {"port", "adapter", "baudrate"} ==>
            k in SerialOf(m) && SerialOf(m)[k] == SerialOf(current)[k])
      && Merged(m, z) == m
  {
    var m := Merged(current, z);
    assert SerialOf(m) + RadioOf(z) == SerialOf(m);
    assert "port" != "adapter" && "port" != "baudrate" && "adapter" != "baudrate" by {
      assert "port"[0] != "adapter"[0] && "port"[0] != "baudrate"[0] && "adapter"[0] != "baudrate"[0];
    }
  }
}
