/** Joining sensor definitions with the latest reported values, by way of a map from reported names. */
module ThingModel {
  import opened Options

  datatype Sensor = Sensor(id: string, name: string, dataType: string)

  datatype SensorData = SensorData(name: string, value: string, timestamp: int)

  datatype Latest = Latest(value: string, timestamp: int)

  datatype SensorWithLatest = SensorWithLatest(sensor: Sensor, latest: Option<Latest>)

  // ---------- the meaning, without a map ----------

  // Report i has the name, no report of that name is newer, and none before it is as new.
  predicate IsLatest(recent: seq<SensorData>, name: string, i: nat) {
    && i < |recent| && recent[i].name == name
    && (forall j :: 0 <= j < |recent| && recent[j].name == name ==> recent[j].timestamp <= recent[i].timestamp)
    && (forall j :: 0 <= j < i && recent[j].name == name ==> recent[j].timestamp < recent[i].timestamp)
  }

  predicate Reported(recent: seq<SensorData>, name: string) {
    name != "" && exists i :: 0 <= i < |recent| && recent[i].name == name
  }

  // The reported name a definition goes by: its id if that was reported, else its name.
  function NameFor(def: Sensor, recent: seq<SensorData>): string {
    if Reported(recent, def.id) then def.id else def.name
  }

  // What a definition must be joined with.
  ghost predicate Joined(item: SensorWithLatest, def: Sensor, recent: seq<SensorData>) {
    && item.sensor == def
    && (item.latest.None? <==> !Reported(recent, NameFor(def, recent)))
    && (item.latest.Some? ==>
          exists i: nat :: IsLatest(recent, NameFor(def, recent), i)
                           && item.latest.value == Latest(recent[i].value, recent[i].timestamp))
  }

  lemma LatestIsUnique(recent: seq<SensorData>, name: string, i: nat, j: nat)
    requires IsLatest(recent, name, i) && IsLatest(recent, name, j)
    ensures i == j
  {
  }

  /** The join is a function of its arguments: two results that are joined with the same definition agree. */
  lemma JoinIsDetermined(a: SensorWithLatest, b: SensorWithLatest, def: Sensor, recent: seq<SensorData>)
    requires Joined(a, def, recent) && Joined(b, def, recent)
    ensures a == b
  {
    var name := NameFor(def, recent);
    if Reported(recent, name) {
      var i: nat :| IsLatest(recent, name, i) && a.latest.value == Latest(recent[i].value, recent[i].timestamp);
      var j: nat :| IsLatest(recent, name, j) && b.latest.value == Latest(recent[j].value, recent[j].timestamp);
      LatestIsUnique(recent, name, i, j);
    }
  }

  /** A definition is joined with the latest report of its id if there is one, else with that of its name, else with none.
      An empty id or name finds nothing. */
  lemma JoinById(item: SensorWithLatest, def: Sensor, recent: seq<SensorData>, i: nat)
    requires Joined(item, def, recent)
    ensures def.id != "" && IsLatest(recent, def.id, i) ==>
              item.latest == Some(Latest(recent[i].value, recent[i].timestamp))
    ensures (def.id == "" || forall k :: 0 <= k < |recent| ==> recent[k].name != def.id)
            && def.name != "" && IsLatest(recent, def.name, i) ==>
              item.latest == Some(Latest(recent[i].value, recent[i].timestamp))
    ensures (forall k :: 0 <= k < |recent| && recent[k].name != "" ==>
               recent[k].name != def.id && recent[k].name != def.name) ==> item.latest == None
  {
    var name := NameFor(def, recent);
    if item.latest.Some? {
      var j: nat :| IsLatest(recent, name, j) && item.latest.value == Latest(recent[j].value, recent[j].timestamp);
      if IsLatest(recent, name, i) {
        LatestIsUnique(recent, name, i, j);
      }
    }
  }

  // ---------- the map ----------

  // The map after some reports: under each reported name the index of its latest report.
  ghost predicate Indexes(latest: map<string, SensorData>, recent: seq<SensorData>) {
    && (forall name :: name in latest <==> Reported(recent, name))
    && (forall name :: name in latest ==> exists i: nat :: IsLatest(recent, name, i) && latest[name] == recent[i])
  }

  lemma AddReport(latest: map<string, SensorData>, recent: seq<SensorData>, d: SensorData)
    requires Indexes(latest, recent)
    ensures d.name == "" ==> Indexes(latest, recent + [d])
    ensures d.name != "" && (d.name in latest ==> d.timestamp > latest[d.name].timestamp) ==>
              Indexes(latest[d.name := d], recent + [d])
    ensures d.name in latest && d.timestamp <= latest[d.name].timestamp ==> Indexes(latest, recent + [d])
  {
    var more := recent + [d];
    forall name ensures Reported(more, name) <==> name != "" && (Reported(recent, name) || name == d.name) {
      if name == d.name {
        assert more[|recent|].name == name;
      }
      if Reported(recent, name) {
        var i :| 0 <= i < |recent| && recent[i].name == name;
        assert more[i].name == name;
      }
    }
    forall name | name in latest && (name != d.name || d.timestamp <= latest[name].timestamp)
      ensures exists i: nat :: IsLatest(more, name, i) && latest[name] == more[i]
    {
      var i: nat :| IsLatest(recent, name, i) && latest[name] == recent[i];
      StaysLatest(recent, d, name, i);
    }
    if d.name != "" && (d.name in latest ==> d.timestamp > latest[d.name].timestamp) {
      BecomesLatest(latest, recent, d);
    }
  }

  lemma StaysLatest(recent: seq<SensorData>, d: SensorData, name: string, i: nat)
    requires IsLatest(recent, name, i) && (d.name == name ==> d.timestamp <= recent[i].timestamp)
    ensures IsLatest(recent + [d], name, i)
  {
  }

  lemma BecomesLatest(latest: map<string, SensorData>, recent: seq<SensorData>, d: SensorData)
    requires Indexes(latest, recent) && d.name != ""
    requires d.name in latest ==> d.timestamp > latest[d.name].timestamp
    ensures IsLatest(recent + [d], d.name, |recent|)
  {
    if d.name in latest {
      var i: nat :| IsLatest(recent, d.name, i) && latest[d.name] == recent[i];
    }
  }

  method LatestByName(recent: seq<SensorData>) returns (latest: map<string, SensorData>)
    ensures Indexes(latest, recent)
  {
    hide Indexes, Reported, IsLatest;
    latest := map[];
    assert recent[..0] == [];
    NothingReported();
    for k := 0 to |recent|
      invariant Indexes(latest, recent[..k])
    {
      var d := recent[k];
      assert recent[..k + 1] == recent[..k] + [d];
      AddReport(latest, recent[..k], d);
      if d.name == "" {
        continue;
      }
      if d.name !in latest || d.timestamp > latest[d.name].timestamp {
        latest := latest[d.name := d];
      }
    }
    assert recent[..|recent|] == recent;
  }

  lemma NothingReported()
    ensures Indexes(map[], [])
  {
  }

  function ToLatest(data: SensorData): Latest {
    Latest(data.value, data.timestamp)
  }

  // What the map gives for a definition.
  lemma Attached(latest: map<string, SensorData>, recent: seq<SensorData>, def: Sensor)
    requires Indexes(latest, recent)
    ensures Joined(SensorWithLatest(def,
                     if def.id in latest then Some(ToLatest(latest[def.id]))
                     else if def.name in latest then Some(ToLatest(latest[def.name]))
                     else None), def, recent)
    ensures "" !in latest
  {
    hide IsLatest;
  }

  /** One item a definition, in their order, each joined with the earliest listed of the newest reports named by
      the definition's id, else by its name. */
  method AttachLatest(defs: seq<Sensor>, recent: seq<SensorData>) returns (out: seq<SensorWithLatest>)
    ensures |out| == |defs|
    ensures forall k :: 0 <= k < |defs| ==> Joined(out[k], defs[k], recent)
  {
    hide Indexes, Joined;
    out := [];
    if |defs| == 0 {
      return;
    }
    var latestByName := LatestByName(recent);
    if |latestByName| == 0 {
      for k := 0 to |defs|
        invariant |out| == k && forall i :: 0 <= i < k ==> Joined(out[i], defs[i], recent)
      {
        Attached(latestByName, recent, defs[k]);
        out := out + [SensorWithLatest(defs[k], None)];
      }
      return;
    }
    for k := 0 to |defs|
      invariant |out| == k && forall i :: 0 <= i < k ==> Joined(out[i], defs[i], recent)
    {
      var def := defs[k];
      var item := SensorWithLatest(def, None);
      if def.id in latestByName {
        item := item.(latest := Some(ToLatest(latestByName[def.id])));
      } else if def.name != "" {
        if def.name in latestByName {
          item := item.(latest := Some(ToLatest(latestByName[def.name])));
        }
      }
      Attached(latestByName, recent, def);
      out := out + [item];
    }
  }
}
