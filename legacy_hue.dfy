/**
  * `custom_components/sensor/hue.py`: the first revision of the sensor
  * platform. Dimmers and taps are parsed as in the sensor platform (the dimmer
  * reads `""` for no event) and assigned under their key; the three records
  * of a motion sensor are merged under theirs. Each update replaces the whole
  * store and announces the keys not seen before; an entity copies its record's
  * state and, model by model, a list of attributes, stopping at the first
  * attribute its record lacks.
  */
module LegacyHue {
  import opened PyBase
  import opened BridgeRecord
  import opened ButtonTables
  import opened Aggregation
  import HueApiResponse
  import Sensor

  // ---------------------------------------------------------------------------
  // Parsers

  /**
    * `parse_sml` of the first revision: as the newest revision's, without the
    * thresholds and the sensitivity; a record of another type leaves `data`
    * unbound.
    */
  function Sml(r: RawSensor): Result<Record> {
    if r.sensorType == "ZLLLightLevel" then
      if r.state.lightlevel.Some? then
        var level := r.state.lightlevel.value;
        Ok(map[LightLevel := VInt(level), Lx := VLux(level), Dark := r.state.dark, Daylight := r.state.daylight])
      else
        Ok(map[LightLevel := VStr("No light level data"), Lx := VNone, Dark := VNone, Daylight := VNone])
    else if r.sensorType == "ZLLTemperature" then
      Ok(map[Temperature := if r.state.temperature.Some? then VHundredths(r.state.temperature.value)
                            else VStr("No temperature data")])
    else if r.sensorType == "ZLLPresence" then
      Ok(map[Model := VStr("SML"), Name := VStr(MotionName(r.name)), State := VStr(OnOff(r.state.presence)),
             Battery := r.config.battery, On := r.config.on, Reachable := r.config.reachable,
             LastUpdated := UpdatedParts(r)])
    else Raises(UnboundLocalError)
  }

  /**
    * The motion parser raises (UnboundLocalError) exactly on a record of none
    * of the three types, and otherwise gives the newest revision's record
    * without the thresholds and the sensitivity.
    */
  lemma SmlAgrees(r: RawSensor)
    ensures Sml(r).Raises? <==> r.sensorType !in {"ZLLLightLevel", "ZLLTemperature", "ZLLPresence"}
    ensures Sml(r).Raises? ==> Sml(r).error == UnboundLocalError
    ensures Sml(r).Ok? ==>
              && Sml(r).value.Keys == HueApiResponse.Sml(r).Keys - {ThresholdDark, ThresholdOffset, Sensitivity}
              && forall f :: f in Sml(r).value ==> Sml(r).value[f] == HueApiResponse.Sml(r)[f]
  {
    if r.sensorType == "ZLLLightLevel" {
      SmlLightLevelAgrees(r);
    } else if r.sensorType == "ZLLPresence" {
      SmlPresenceAgrees(r);
    }
  }

  lemma SmlLightLevelAgrees(r: RawSensor)
    requires r.sensorType == "ZLLLightLevel"
    ensures Sml(r).value.Keys == HueApiResponse.Sml(r).Keys - {ThresholdDark, ThresholdOffset, Sensitivity}
  {
  }

  lemma SmlPresenceAgrees(r: RawSensor)
    requires r.sensorType == "ZLLPresence"
    ensures Sml(r).value.Keys == HueApiResponse.Sml(r).Keys - {ThresholdDark, ThresholdOffset, Sensitivity}
  {
    var fields := {Model, Name, State, Battery, On, Reachable, LastUpdated};
    assert Sml(r).value.Keys == fields;
    assert HueApiResponse.Sml(r).Keys == fields + {Sensitivity};
  }

  /** `parse_rwl` of the first revision: the decimal decoding of the event, `""` for a missing or zero event. */
  function Rwl(r: RawSensor): Result<Record> {
    var button :- DimmerButton(r.state.buttonevent, VStr(""));
    Ok(map[Model := VStr("RWL"), Name := VStr(r.name), State := button, Battery := r.config.battery,
           On := r.config.on, Reachable := r.config.reachable, LastUpdated := UpdatedParts(r)])
  }

  /**
    * The dimmer parser raises exactly when the sensor platform's does, and
    * gives its record except that no event reads `""` rather than `None`.
    */
  lemma RwlAgrees(r: RawSensor)
    ensures Rwl(r).Ok? <==> Sensor.Rwl(r).Ok?
    ensures Rwl(r).Ok? ==>
              var e := r.state.buttonevent;
              Rwl(r).value == Sensor.Rwl(r).value[State := if e.None? || e.value == 0 then VStr("") else Sensor.Rwl(r).value[State]]
  {
    if Rwl(r).Ok? {
      var e := r.state.buttonevent;
      var other := Sensor.Rwl(r).value[State := if e.None? || e.value == 0 then VStr("") else Sensor.Rwl(r).value[State]];
      assert Rwl(r).value.Keys == other.Keys;
    }
  }

  // ---------------------------------------------------------------------------
  // The aggregation loop

  /**
    * One iteration of `parse_hue_api_response`: RWL, SML and ZGP records are
    * keyed by the model and all but the last five characters of `uniqueid`;
    * dimmers and taps are assigned (`parse_zgp` is the sensor platform's),
    * motion records merged; every other model is dropped.
    */
  function ToFacet(r: RawSensor): Result<Facet> {
    var modelId := ModelPrefix(r);
    if modelId == "RWL" || modelId == "SML" || modelId == "ZGP" then
      var key := modelId + "_" + Slice(r.uniqueid, None, Some(-5));
      if modelId == "RWL" then
        var rec :- Rwl(r);
        Ok(Put(key, rec))
      else if modelId == "ZGP" then
        var rec :- Sensor.Zgp(r);
        Ok(Put(key, rec))
      else
        var rec :- Sml(r);
        Ok(Merge(key, rec))
    else Ok(Skip)
  }

  /**
    * A record raises iff its parser raises; it is dropped iff its model is not
    * RWL, SML or ZGP; otherwise it goes under its model, `"_"` and all but the
    * last five characters of `uniqueid`, assigned for RWL and ZGP and merged
    * for SML.
    */
  lemma ToFacetSpec(r: RawSensor)
    ensures var m := ModelPrefix(r);
            ToFacet(r).Raises? <==> (m == "RWL" && Rwl(r).Raises?) || (m == "ZGP" && Sensor.Zgp(r).Raises?) || (m == "SML" && Sml(r).Raises?)
    ensures ToFacet(r) == Ok(Skip) <==> ModelPrefix(r) !in {"RWL", "SML", "ZGP"}
    ensures ToFacet(r).Ok? && !ToFacet(r).value.Skip? ==>
              var f := ToFacet(r).value;
              var u := r.uniqueid;
              && f.key == ModelPrefix(r) + "_" + (if |u| >= 5 then u[..|u| - 5] else [])
              && (f.Merge? <==> ModelPrefix(r) == "SML")
              && f.record == match ModelPrefix(r) case "RWL" => Rwl(r).value case "ZGP" => Sensor.Zgp(r).value case _ => Sml(r).value
  {
    SliceDropLast(r.uniqueid, 5);
  }

  /** The key of every facet starts with the record's three-letter model prefix. */
  lemma FacetKeyPrefix(r: RawSensor)
    requires ToFacet(r).Ok? && !ToFacet(r).value.Skip?
    ensures |ModelPrefix(r)| == 3 && ToFacet(r).value.key[..3] == ModelPrefix(r)
  {
    ToFacetSpec(r);
    var m := ModelPrefix(r);
    assert ToFacet(r).value.key == m + ("_" + Slice(r.uniqueid, None, Some(-5)));
  }

  function Facets(sensors: seq<RawSensor>): (rs: seq<Result<Facet>>)
    ensures |rs| == |sensors| && forall i :: 0 <= i < |sensors| ==> rs[i] == ToFacet(sensors[i])
  {
    seq(|sensors|, i requires 0 <= i < |sensors| => ToFacet(sensors[i]))
  }

  /** What `parse_hue_api_response` returns or raises for the records of one update. */
  function Parsed(sensors: seq<RawSensor>): (r: Result<Dict>)
    ensures r.Ok? ==> r.value.Listed() && r.value.Valid()
  {
    CollectResultsSpec(Facets(sensors));
    if AllOk(Facets(sensors)) then
      CollectListed(Values(Facets(sensors)));
      CollectValid(Values(Facets(sensors)));
      CollectResults(Facets(sensors))
    else CollectResults(Facets(sensors))
  }

  /** `parse_hue_api_response` */
  method ParseHueApiResponse(sensors: seq<RawSensor>) returns (r: Result<Dict>)
    ensures r == Parsed(sensors)
  {
    var dataDict := EmptyDict;
    var rs := Facets(sensors);
    var i := 0;
    while i < |sensors|
      invariant i <= |sensors|
      invariant CollectResults(rs[..i]) == Ok(dataDict)
    {
      assert rs[..i + 1] == rs[..i] + [ToFacet(sensors[i])];
      CollectResultsAppend(rs[..i], ToFacet(sensors[i]));
      var next := AddSensor(dataDict, sensors[i]);
      if next.Raises? {
        CollectResultsPrefixRaises(rs, i + 1);
        return next;
      }
      dataDict := next.value;
      i := i + 1;
    }
    assert rs[..i] == rs;
    return Ok(dataDict);
  }

  /** The body of the loop for one record. */
  method AddSensor(dataDict: Dict, sensor: RawSensor) returns (r: Result<Dict>)
    ensures r == (var f :- ToFacet(sensor); Ok(AddFacet(dataDict, f)))
  {
    var modelId := ModelPrefix(sensor);
    if modelId == "RWL" || modelId == "SML" || modelId == "ZGP" {
      var key := modelId + "_" + Slice(sensor.uniqueid, None, Some(-5));
      if modelId == "RWL" {
        var parsed := Rwl(sensor);
        if parsed.Raises? {
          return Raises(parsed.error);
        }
        return Ok(dataDict.Assign(key, parsed.value));
      } else if modelId == "ZGP" {
        var parsed := Sensor.Zgp(sensor);
        if parsed.Raises? {
          return Raises(parsed.error);
        }
        return Ok(dataDict.Assign(key, parsed.value));
      } else {
        var parsed := Sml(sensor);
        if parsed.Raises? {
          return Raises(parsed.error);
        }
        if key !in dataDict.items {
          return Ok(dataDict.Assign(key, parsed.value));
        }
        return Ok(dataDict.Assign(key, dataDict.items[key] + parsed.value));
      }
    }
    return Ok(dataDict);
  }

  /** The loop raises iff some record's parser raises. */
  lemma ParsedRaises(sensors: seq<RawSensor>)
    ensures Parsed(sensors).Raises? <==> exists i :: 0 <= i < |sensors| && ToFacet(sensors[i]).Raises?
  {
    CollectResultsSpec(Facets(sensors));
  }

  /** The keys of the result are the keys of the RWL, SML and ZGP records; all other records leave no trace. */
  lemma ParsedKeys(sensors: seq<RawSensor>, k: string)
    requires Parsed(sensors).Ok?
    ensures k in Parsed(sensors).value.items <==>
              exists i :: 0 <= i < |sensors| && ToFacet(sensors[i]).Ok? && Names(ToFacet(sensors[i]).value, k)
  {
    var rs := Facets(sensors);
    CollectResultsSpec(rs);
    var fs := Values(rs);
    CollectKeys(fs, k);
    if exists i :: 0 <= i < |fs| && Names(fs[i], k) {
      var i :| 0 <= i < |fs| && Names(fs[i], k);
      assert ToFacet(sensors[i]).Ok? && Names(ToFacet(sensors[i]).value, k);
    }
  }

  /** A dimmer or tap record is the entry of its key outright when no later record names that key. */
  lemma ParsedLastWins(sensors: seq<RawSensor>, i: nat)
    requires Parsed(sensors).Ok? && i < |sensors| && ModelPrefix(sensors[i]) in {"RWL", "ZGP"} && ToFacet(sensors[i]).Ok?
    requires forall j :: i < j < |sensors| && ToFacet(sensors[j]).Ok? ==> !Names(ToFacet(sensors[j]).value, ToFacet(sensors[i]).value.key)
    ensures var f := ToFacet(sensors[i]).value;
            f.key in Parsed(sensors).value.items && Parsed(sensors).value.items[f.key] == f.record
  {
    var rs := Facets(sensors);
    CollectResultsSpec(rs);
    var fs := Values(rs);
    ToFacetSpec(sensors[i]);
    CollectReplaced(fs, i);
  }

  /**
    * The records of a motion sensor are merged: a field of one of them is in
    * the entry of its key, with that record's value, unless a later record of
    * the key carries the field too.
    */
  lemma ParsedSmlMerged(sensors: seq<RawSensor>, i: nat, fld: Field)
    requires Parsed(sensors).Ok? && i < |sensors| && ModelPrefix(sensors[i]) == "SML" && ToFacet(sensors[i]).Ok?
    requires var f := ToFacet(sensors[i]).value; fld in f.record
    requires forall j :: i < j < |sensors| && ToFacet(sensors[j]).Ok? && Names(ToFacet(sensors[j]).value, ToFacet(sensors[i]).value.key)
                         ==> fld !in ToFacet(sensors[j]).value.record
    ensures var f := ToFacet(sensors[i]).value;
            f.key in Parsed(sensors).value.items && fld in Parsed(sensors).value.items[f.key]
            && Parsed(sensors).value.items[f.key][fld] == f.record[fld]
  {
    var rs := Facets(sensors);
    CollectResultsSpec(rs);
    var fs := Values(rs);
    var k := fs[i].key;
    ToFacetSpec(sensors[i]);
    FacetKeyPrefix(sensors[i]);
    forall j | 0 <= j < |fs| && Names(fs[j], k) ensures fs[j].Merge? {
      FacetKeyPrefix(sensors[j]);
      ToFacetSpec(sensors[j]);
    }
    assert AllMerge(fs, k);
    LastWithIsLast(fs, k, fld, i);
    CollectMerged(fs, k, fld);
  }

  // ---------------------------------------------------------------------------
  // `HueSensorData.async_update_info`

  /** `self.data`, and the key sets handed to `async_add_entities`, one per update that got through. */
  datatype Info = Info(data: map<string, Record>, announced: seq<set<string>>)

  /**
    * `async_update_info`: nothing happens without a bridge or when the parse
    * raises; otherwise the non-geofence records are parsed, the parse replaces
    * the store, and its keys not stored before are announced.
    */
  function UpdatedInfo(s: Info, hasApis: bool, raws: seq<RawSensor>): (Info, Option<PyError>) {
    if !hasApis then (s, None)
    else
      match Parsed(NonGeofence(raws))
      case Raises(e) => (s, Some(e))
      case Ok(d) => (Info(d.items, s.announced + [d.items.Keys - s.data.Keys]), None)
  }

  /** Every stored key has been announced once. */
  ghost predicate Announced(s: Info) {
    forall k :: k in s.data ==> exists i :: 0 <= i < |s.announced| && k in s.announced[i]
  }

  /**
    * An update keeps every stored key announced. One that gets through stores
    * exactly the keys of the parse, dropping the keys it no longer sees, and
    * announces exactly its keys that were not stored; one that raises changes
    * nothing.
    */
  lemma UpdatedInfoSpec(s: Info, hasApis: bool, raws: seq<RawSensor>, k: string)
    requires Announced(s)
    ensures var (t, err) := UpdatedInfo(s, hasApis, raws);
            && Announced(t)
            && (!hasApis ==> t == s && err.None?)
            && (err.Some? ==> t == s && hasApis && Parsed(NonGeofence(raws)).Raises?)
            && (hasApis && err.None? ==>
                  && (k in t.data <==> k in Parsed(NonGeofence(raws)).value.items)
                  && (k in t.data ==> t.data[k] == Parsed(NonGeofence(raws)).value.items[k])
                  && |t.announced| == |s.announced| + 1
                  && (k in t.announced[|s.announced|] <==> k in t.data && k !in s.data))
  {
    var (t, err) := UpdatedInfo(s, hasApis, raws);
    if hasApis && err.None? {
      forall j | j in t.data ensures exists i :: 0 <= i < |t.announced| && j in t.announced[i] {
        if j in s.data {
          var i :| 0 <= i < |s.announced| && j in s.announced[i];
          assert t.announced[i] == s.announced[i];
        } else {
          assert j in t.announced[|s.announced|];
        }
      }
    }
  }

  /** The store of the sensor platform's first revision. */
  class HueSensorData {
    /** `self.data` */
    var data: map<string, Record>
    /** The key sets handed to `async_add_entities`, in order. */
    var announced: seq<set<string>>

    constructor ()
      ensures data == map[] && announced == []
    {
      data := map[];
      announced := [];
    }

    /**
      * `async_update_info`; `hasApis` says whether any bridge is set up, `raws`
      * are the records of all bridges in turn.
      */
    method UpdateInfo(hasApis: bool, raws: seq<RawSensor>) returns (err: Option<PyError>)
      modifies this
      ensures (Info(data, announced), err) == UpdatedInfo(old(Info(data, announced)), hasApis, raws)
    {
      if !hasApis {
        return None;
      }
      var parsed := ParseHueApiResponse(NonGeofence(raws));
      if parsed.Raises? {
        return Some(parsed.error);
      }
      var newEntities := parsed.value.items.Keys - data.Keys;
      data := parsed.value.items;
      announced := announced + [newEntities];
      return None;
    }
  }

  // ---------------------------------------------------------------------------
  // `HueSensor.update`

  const ICON_MOTION: string := "mdi:run-fast"
  const ICON_REMOTE: string := "mdi:remote"

  /** The attributes `update` copies for each model, in the order it copies them. */
  const SML_ATTRIBUTES: seq<Field> := [LightLevel, Battery, LastUpdated, Lx, Dark, Daylight, Temperature, On, Reachable]
  const RWL_ATTRIBUTES: seq<Field> := [LastUpdated, Battery, On, Reachable]
  const ZGP_ATTRIBUTES: seq<Field> := [LastUpdated]

  /** How many fields, from the first, the record carries before the first it lacks. */
  function PresentPrefix(fields: seq<Field>, rec: Record): (n: nat)
    ensures n <= |fields|
    ensures forall i :: 0 <= i < n ==> fields[i] in rec
    ensures n < |fields| ==> fields[n] !in rec
    decreases |fields|
  {
    if fields == [] || fields[0] !in rec then 0 else 1 + PresentPrefix(fields[1..], rec)
  }

  /** The attributes once the fields are copied from the record in order, up to the first one it lacks. */
  function Copied(attributes: map<Field, Value>, fields: seq<Field>, rec: Record): (r: map<Field, Value>)
    ensures attributes.Keys <= r.Keys
    decreases |fields|
  {
    if fields == [] || fields[0] !in rec then attributes
    else Copied(attributes[fields[0] := rec[fields[0]]], fields[1..], rec)
  }

  /**
    * Copying sets exactly the fields before the first missing one, to the
    * record's values, and leaves every other attribute as it was.
    */
  lemma {:induction false} CopiedSpec(attributes: map<Field, Value>, fields: seq<Field>, rec: Record, f: Field)
    ensures var r := Copied(attributes, fields, rec);
            var done := fields[..PresentPrefix(fields, rec)];
            && (f in done ==> f in r && r[f] == rec[f])
            && (f !in done ==> (f in r <==> f in attributes) && (f in attributes ==> r[f] == attributes[f]))
    decreases |fields|
  {
    if fields != [] && fields[0] in rec {
      var next := attributes[fields[0] := rec[fields[0]]];
      CopiedSpec(next, fields[1..], rec, f);
      var n := PresentPrefix(fields[1..], rec);
      assert fields[..1 + n] == [fields[0]] + fields[1..][..n];
    }
  }

  /** The copying loop inside `update`'s `try`, on the attributes: a missing field ends it and the error is logged. */
  method CopyAttributes(attributes: map<Field, Value>, fields: seq<Field>, rec: Record) returns (r: map<Field, Value>)
    ensures r == Copied(attributes, fields, rec)
  {
    r := attributes;
    var i := 0;
    while i < |fields| && fields[i] in rec
      invariant i <= |fields|
      invariant Copied(attributes, fields, rec) == Copied(r, fields[i..], rec)
    {
      assert fields[i..][1..] == fields[i + 1..];
      r := r[fields[i] := rec[fields[i]]];
      i := i + 1;
    }
  }

  /** What `update` may change on an entity. */
  datatype View = View(state: Value, icon: Option<string>, attributes: map<Field, Value>)

  /** The icon and the attribute list of a model; other models get neither. */
  function Attributes(model: Value): seq<Field> {
    if model == VStr("SML") then SML_ATTRIBUTES
    else if model == VStr("RWL") then RWL_ATTRIBUTES
    else if model == VStr("ZGP") then ZGP_ATTRIBUTES
    else []
  }

  /**
    * `update`: nothing happens for a missing or empty record; a record
    * without `state` raises KeyError; otherwise the state is copied, the
    * model's icon set and its attributes copied up to the first missing one.
    */
  function Refreshed(v: View, model: Value, rec: Option<Record>): (r: (View, Option<PyError>))
    ensures r.1.Some? ==> r.1 == Some(KeyError)
    ensures v.attributes.Keys <= r.0.attributes.Keys
  {
    if Falsy(rec) then (v, None)
    else if State !in rec.value then (v, Some(KeyError))
    else
      var shown := v.(state := rec.value[State]);
      if model == VStr("SML") then
        (shown.(icon := Some(ICON_MOTION), attributes := Copied(v.attributes, SML_ATTRIBUTES, rec.value)), None)
      else if model == VStr("RWL") then
        (shown.(icon := Some(ICON_REMOTE), attributes := Copied(v.attributes, RWL_ATTRIBUTES, rec.value)), None)
      else if model == VStr("ZGP") then
        (shown.(icon := Some(ICON_REMOTE), attributes := Copied(v.attributes, ZGP_ATTRIBUTES, rec.value)), None)
      else (shown, None)
  }

  /**
    * An update raises iff the record is there, non-empty and without `state`,
    * and then changes nothing. Otherwise it shows the record's state and sets,
    * of the model's attributes, exactly those before the first one the record
    * lacks; every other attribute is left as it was.
    */
  lemma RefreshedSpec(v: View, model: Value, rec: Option<Record>, f: Field)
    ensures var (w, err) := Refreshed(v, model, rec);
            && (err.Some? <==> !Falsy(rec) && State !in rec.value)
            && (err.Some? || Falsy(rec) ==> w == v)
            && (err.None? && !Falsy(rec) ==>
                  var done := Attributes(model)[..PresentPrefix(Attributes(model), rec.value)];
                  && w.state == rec.value[State]
                  && (f in done ==> f in w.attributes && w.attributes[f] == rec.value[f])
                  && (f !in done ==> (f in w.attributes <==> f in v.attributes) && (f in v.attributes ==> w.attributes[f] == v.attributes[f])))
  {
    if !Falsy(rec) && State in rec.value {
      CopiedSpec(v.attributes, Attributes(model), rec.value, f);
    }
  }

  /**
    * A dimmer parsed by the first revision carries all of its attributes, so
    * its entity shows every one of them, with the remote icon.
    */
  lemma RwlRefreshed(v: View, r: RawSensor, f: Field)
    requires Rwl(r).Ok? && f in RWL_ATTRIBUTES
    ensures var (w, err) := Refreshed(v, VStr("RWL"), Some(Rwl(r).value));
            && err.None? && w.icon == Some(ICON_REMOTE) && w.state == Rwl(r).value[State]
            && f in w.attributes && w.attributes[f] == Rwl(r).value[f]
  {
    RefreshedSpec(v, VStr("RWL"), Some(Rwl(r).value), f);
    assert PresentPrefix(RWL_ATTRIBUTES, Rwl(r).value) == 4;
  }

  /**
    * A motion sensor whose temperature record is missing keeps its old `on`
    * and `reachable` attributes: they come after `temperature` in the list,
    * so the copy stops before them.
    */
  lemma SmlStopsAtTemperature(v: View, rec: Record)
    requires State in rec && Temperature !in rec
    ensures var (w, err) := Refreshed(v, VStr("SML"), Some(rec));
            && err.None?
            && (On in w.attributes <==> On in v.attributes) && (On in v.attributes ==> w.attributes[On] == v.attributes[On])
            && (Reachable in w.attributes <==> Reachable in v.attributes)
  {
    var n := PresentPrefix(SML_ATTRIBUTES, rec);
    assert SML_ATTRIBUTES[6] == Temperature;
    var before := SML_ATTRIBUTES[..6];
    assert before == [LightLevel, Battery, LastUpdated, Lx, Dark, Daylight];
    assert SML_ATTRIBUTES[..n] == before[..n];
    assert On !in before[..n] && Reachable !in before[..n];
    CopiedSpec(v.attributes, SML_ATTRIBUTES, rec, On);
    CopiedSpec(v.attributes, SML_ATTRIBUTES, rec, Reachable);
  }

  /** `HueSensor`: an entity that reads its record from the shared store. */
  class HueSensor {
    const hueId: string
    const store: HueSensorData
    const name: Value
    const model: Value
    var state: Value
    var icon: Option<string>
    var attributes: map<Field, Value>

    /** `__init__`: the record must carry `name`, `model` and `state`. */
    constructor (hueId: string, store: HueSensorData)
      requires hueId in store.data
      requires Name in store.data[hueId] && Model in store.data[hueId] && State in store.data[hueId]
      ensures this.hueId == hueId && this.store == store
      ensures name == store.data[hueId][Name] && model == store.data[hueId][Model] && state == store.data[hueId][State]
      ensures icon.None? && attributes == map[]
    {
      this.hueId := hueId;
      this.store := store;
      name := store.data[hueId][Name];
      model := store.data[hueId][Model];
      state := store.data[hueId][State];
      icon := None;
      attributes := map[];
    }

    /** `available`: the key is in the store. */
    predicate Available()
      reads this, store
    {
      hueId in store.data
    }

    /** `update` */
    method Update() returns (err: Option<PyError>)
      modifies this`state, this`icon, this`attributes
      ensures (View(state, icon, attributes), err) == Refreshed(old(View(state, icon, attributes)), model, Get(store.data, hueId))
    {
      var rec := Get(store.data, hueId);
      if Falsy(rec) {
        return None;
      }
      if State !in rec.value {
        return Some(KeyError);
      }
      state := rec.value[State];
      if model == VStr("SML") {
        icon := Some(ICON_MOTION);
        attributes := CopyAttributes(attributes, SML_ATTRIBUTES, rec.value);
      } else if model == VStr("RWL") {
        icon := Some(ICON_REMOTE);
        attributes := CopyAttributes(attributes, RWL_ATTRIBUTES, rec.value);
      } else if model == VStr("ZGP") {
        icon := Some(ICON_REMOTE);
        attributes := CopyAttributes(attributes, ZGP_ATTRIBUTES, rec.value);
      }
      return None;
    }
  }

  /**
    * After an update that got through, an entity is available iff the parse
    * still has its key; a key dropped by the parse makes it unavailable even
    * though its last state stays shown.
    */
  lemma AvailableAfterUpdate(s: Info, raws: seq<RawSensor>, k: string)
    requires Announced(s)
    requires UpdatedInfo(s, true, raws).1.None?
    ensures k in UpdatedInfo(s, true, raws).0.data <==> Parsed(NonGeofence(raws)).Ok? && k in Parsed(NonGeofence(raws)).value.items
  {
    UpdatedInfoSpec(s, true, raws, k);
  }
}
