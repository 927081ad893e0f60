/** The two-way index between the cloud's devices and Home Assistant's entities
    (internal/entitymap/entitymap.go). */
module EntityMap {
  import opened Common

  datatype Entry = Entry(device: string, entity: string)

  datatype Map = Map(deviceToEntity: map<string, string>, entityToDevice: map<string, string>)

  function EntityForDevice(m: Map, device: string): string {
    Lookup(m.deviceToEntity, device)
  }

  function DeviceForEntity(m: Map, entity: string): string {
    Lookup(m.entityToDevice, entity)
  }

  predicate Blank(e: Entry) {
    e.device == "" || e.entity == ""
  }

  function Bind(m: Map, e: Entry): Map {
    if Blank(e) then m else Map(m.deviceToEntity[e.device := e.entity], m.entityToDevice[e.entity := e.device])
  }

  /** The map of a list of entries: blank ones are skipped and later ones win. */
  function Of(entries: seq<Entry>): Map {
    if entries == [] then Map(map[], map[]) else Bind(Of(entries[..|entries| - 1]), entries[|entries| - 1])
  }

  method New(entries: seq<Entry>) returns (m: Map)
    ensures m == Of(entries)
  {
    var deviceToEntity: map<string, string>, entityToDevice: map<string, string> := map[], map[];
    for i := 0 to |entries|
      invariant Map(deviceToEntity, entityToDevice) == Of(entries[..i])
    {
      var e := entries[i];
      if e.device != "" && e.entity != "" {
        deviceToEntity := deviceToEntity[e.device := e.entity];
        entityToDevice := entityToDevice[e.entity := e.device];
      }
      assert entries[..i + 1][..i] == entries[..i];
    }
    assert entries[..|entries|] == entries;
    m := Map(deviceToEntity, entityToDevice);
  }

  /** No later entry speaks of the same device. */
  ghost predicate LastOfDevice(entries: seq<Entry>, i: nat)
    requires i < |entries|
  {
    && entries[i].device != "" && entries[i].entity != ""
    && forall j :: i < j < |entries| && entries[j].entity != "" ==> entries[j].device != entries[i].device
  }

  ghost predicate LastOfEntity(entries: seq<Entry>, i: nat)
    requires i < |entries|
  {
    && entries[i].device != "" && entries[i].entity != ""
    && forall j :: i < j < |entries| && entries[j].device != "" ==> entries[j].entity != entries[i].entity
  }

  /** A device's entity is the one its last entry gives, and an entity's device the
      one that the entity's last entry gives. */
  lemma {:induction false} LookupIsLast(entries: seq<Entry>, i: nat)
    requires i < |entries|
    ensures LastOfDevice(entries, i) ==> EntityForDevice(Of(entries), entries[i].device) == entries[i].entity
    ensures LastOfEntity(entries, i) ==> DeviceForEntity(Of(entries), entries[i].entity) == entries[i].device
  {
    var init := entries[..|entries| - 1];
    if i < |init| {
      LookupIsLast(init, i);
      var last := entries[|entries| - 1];
      assert LastOfDevice(entries, i) ==> LastOfDevice(init, i) && (Blank(last) || last.device != entries[i].device);
      assert LastOfEntity(entries, i) ==> LastOfEntity(init, i) && (Blank(last) || last.entity != entries[i].entity);
    }
  }

  /** Whatever is found comes from the last entry that speaks of it. */
  lemma {:induction false} DeviceFound(entries: seq<Entry>, device: string) returns (i: nat)
    requires EntityForDevice(Of(entries), device) != ""
    ensures i < |entries| && LastOfDevice(entries, i)
    ensures entries[i] == Entry(device, EntityForDevice(Of(entries), device))
  {
    var init, last := entries[..|entries| - 1], entries[|entries| - 1];
    if !Blank(last) && last.device == device {
      i := |entries| - 1;
    } else {
      i := DeviceFound(init, device);
      assert entries[i] == init[i];
      assert forall j :: 0 <= j < |init| ==> entries[j] == init[j];
    }
  }

  lemma {:induction false} EntityFound(entries: seq<Entry>, entity: string) returns (i: nat)
    requires DeviceForEntity(Of(entries), entity) != ""
    ensures i < |entries| && LastOfEntity(entries, i)
    ensures entries[i] == Entry(DeviceForEntity(Of(entries), entity), entity)
  {
    var init, last := entries[..|entries| - 1], entries[|entries| - 1];
    if !Blank(last) && last.entity == entity {
      i := |entries| - 1;
    } else {
      i := EntityFound(init, entity);
      assert forall j :: 0 <= j < |init| ==> entries[j] == init[j];
    }
  }

  /** The two directions of lookup undo each other. */
  ghost predicate Inverse(m: Map) {
    forall d, e :: d != "" && e != "" ==> (EntityForDevice(m, d) == e <==> DeviceForEntity(m, e) == d)
  }

  /** An entry is the last word on its device exactly if it is on its entity. */
  ghost predicate Paired(entries: seq<Entry>) {
    forall i :: 0 <= i < |entries| ==> (LastOfDevice(entries, i) <==> LastOfEntity(entries, i))
  }

  /** The lookups are mutual inverses exactly for the lists in which each entry is
      the last word on its device if and only if it is on its entity. */
  lemma InverseExactly(entries: seq<Entry>)
    ensures Inverse(Of(entries)) <==> Paired(entries)
  {
    if Paired(entries) {
      PairedIsInverse(entries);
    }
    if Inverse(Of(entries)) {
      InverseIsPaired(entries);
    }
  }

  lemma PairedIsInverse(entries: seq<Entry>)
    requires Paired(entries)
    ensures Inverse(Of(entries))
  {
    hide LastOfDevice, LastOfEntity, EntityForDevice, DeviceForEntity, Of;
    forall d, e | d != "" && e != ""
      ensures EntityForDevice(Of(entries), d) == e <==> DeviceForEntity(Of(entries), e) == d
    {
      if EntityForDevice(Of(entries), d) == e {
        var i := DeviceFound(entries, d);
        LookupIsLast(entries, i);
      }
      if DeviceForEntity(Of(entries), e) == d {
        var i := EntityFound(entries, e);
        LookupIsLast(entries, i);
      }
    }
  }

  lemma InverseIsPaired(entries: seq<Entry>)
    requires Inverse(Of(entries))
    ensures Paired(entries)
  {
    hide EntityForDevice, DeviceForEntity, Of;
    forall i | 0 <= i < |entries| ensures LastOfDevice(entries, i) <==> LastOfEntity(entries, i) {
      LookupIsLast(entries, i);
      if LastOfDevice(entries, i) {
        var j := EntityFound(entries, entries[i].entity);
        assert entries[j].device == entries[i].device && j == i;
      }
      if LastOfEntity(entries, i) {
        var j := DeviceFound(entries, entries[i].device);
        assert entries[j].entity == entries[i].entity && j == i;
      }
    }
  }

  /** In particular, for lists in which no two entries share a device or an entity. */
  lemma DistinctIsInverse(entries: seq<Entry>)
    requires forall i, j :: 0 <= i < j < |entries| && !Blank(entries[i]) && !Blank(entries[j]) ==>
               entries[i].device != entries[j].device && entries[i].entity != entries[j].entity
    ensures Inverse(Of(entries))
  {
    assert Paired(entries);
    PairedIsInverse(entries);
  }
}
