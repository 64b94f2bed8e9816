/**
  * `custom_components/huesensor/binary_sensor.py`: the binary sensor
  * platform's parsing of motion sensors (SML) and daylight sensors (PHD), its
  * `update_bridge`, which is the changed-flag diff of `ChangedFlag`, and the
  * `is_on` an entity shows.
  */
module BinarySensor {
  import opened PyBase
  import opened BridgeRecord
  import opened Aggregation
  import opened ChangedFlag
  import HueApiResponse

  // ---------------------------------------------------------------------------
  // Parsers

  /**
    * `parse_sml`: the newest revision's record for a light-level, temperature
    * or presence record; any other type leaves `data` unbound.
    */
  function Sml(r: RawSensor): Result<Record> {
    if r.sensorType in {"ZLLLightLevel", "ZLLTemperature", "ZLLPresence"} then Ok(HueApiResponse.Sml(r))
    else Raises(UnboundLocalError)
  }

  const DAYLIGHT: string := "Daylight"
  const NO_DAYLIGHT_DATA: Value := VStr("No Daylight data")

  /** The twelve fields every daylight record carries. */
  const PHD_FIELDS: set<Field> := {Model, State, On, Configured, SunriseOffset, SunsetOffset, Name, Type, ModelId,
                                   SwVersion, Daylight, LastUpdated}

  /**
    * `parse_phd`: for a daylight record, its readings, or when `daylight` is
    * `None` a record of placeholders; any other type leaves `data` unbound.
    */
  function Phd(r: RawSensor): Result<Record> {
    if r.sensorType != DAYLIGHT then Raises(UnboundLocalError)
    else
      var daylight := r.state.daylight;
      if daylight != VNone then
        Ok(map[Model := VStr("PHD"), State := VStr(OnOff(daylight)), On := r.config.on,
               Configured := r.config.configured, SunriseOffset := r.config.sunriseoffset,
               SunsetOffset := r.config.sunsetoffset, Name := VStr("Hue " + r.name), Type := VStr(r.sensorType),
               ModelId := VStr(r.modelid), SwVersion := r.swversion, Daylight := daylight,
               LastUpdated := UpdatedParts(r)])
      else
        Ok(map[Model := VStr("PHD"), State := NO_DAYLIGHT_DATA, On := VNone, Configured := VNone,
               SunriseOffset := VNone, SunsetOffset := VNone, Name := VNone, Type := VNone, ModelId := VNone,
               SwVersion := VNone, Daylight := NO_DAYLIGHT_DATA, LastUpdated := VNone])
  }

  /** The motion sensor parser raises iff the type is none of the three, and otherwise agrees with the newest revision's. */
  lemma SmlAgrees(r: RawSensor)
    ensures Sml(r).Raises? <==> r.sensorType !in {"ZLLLightLevel", "ZLLTemperature", "ZLLPresence"}
    ensures Sml(r).Raises? ==> Sml(r).error == UnboundLocalError
    ensures Sml(r).Ok? ==> Sml(r).value == HueApiResponse.Sml(r) && Sml(r).value != map[]
  {
    if r.sensorType == "ZLLLightLevel" {
      assert LightLevel in HueApiResponse.Sml(r);
    } else if r.sensorType == "ZLLTemperature" {
      assert Temperature in HueApiResponse.Sml(r);
    } else if r.sensorType == "ZLLPresence" {
      assert Model in HueApiResponse.Sml(r);
    }
  }

  /** The daylight parser raises iff the record is not of type Daylight, and otherwise always gives the twelve fields. */
  lemma PhdSpec(r: RawSensor)
    ensures Phd(r).Raises? <==> r.sensorType != DAYLIGHT
    ensures Phd(r).Raises? ==> Phd(r).error == UnboundLocalError
    ensures Phd(r).Ok? ==> Phd(r).value.Keys == PHD_FIELDS && Phd(r).value[Model] == VStr("PHD")
  {
  }

  /**
    * A daylight record reads "on" iff `daylight` is True, and gives the
    * placeholders, every other field `None`, iff `daylight` is `None`.
    */
  lemma PhdState(r: RawSensor)
    requires r.sensorType == DAYLIGHT
    ensures var rec := Phd(r).value;
            && State in rec
            && (rec[State] == VStr(STATE_ON) <==> r.state.daylight == VBool(true))
            && (rec[State] == NO_DAYLIGHT_DATA <==> r.state.daylight == VNone)
            && (r.state.daylight == VNone ==> forall f :: f in rec && f !in {Model, State, Daylight} ==> rec[f] == VNone)
  {
  }

  // ---------------------------------------------------------------------------
  // The aggregation loop

  /**
    * One iteration of `parse_hue_api_response`: an SML record is merged under
    * the model and all but the last five characters of `uniqueid`, a PHD
    * record under `"PHD_"` and the bridge's id; any other record is dropped.
    */
  function ToFacet(bridgeId: string, r: RawSensor): Result<Facet> {
    var modelId := ModelPrefix(r);
    if modelId == "SML" then
      var rec :- Sml(r);
      Ok(Merge(modelId + "_" + Slice(r.uniqueid, None, Some(-5)), rec))
    else if modelId == "PHD" then
      var rec :- Phd(r);
      Ok(Merge(modelId + "_" + bridgeId, rec))
    else Ok(Skip)
  }

  /**
    * A record raises iff it is a motion sensor of another type or a daylight
    * sensor of another type; it is dropped iff it is neither; its facet always
    * merges, under a key that starts with its model, and the daylight key is
    * the same for every daylight sensor of the bridge.
    */
  lemma ToFacetSpec(bridgeId: string, r: RawSensor)
    ensures ToFacet(bridgeId, r).Raises? <==>
              (ModelPrefix(r) == "SML" && Sml(r).Raises?) || (ModelPrefix(r) == "PHD" && Phd(r).Raises?)
    ensures ToFacet(bridgeId, r) == Ok(Skip) <==> ModelPrefix(r) !in {"SML", "PHD"}
    ensures ToFacet(bridgeId, r).Ok? && !ToFacet(bridgeId, r).value.Skip? ==>
              var f := ToFacet(bridgeId, r).value;
              && f.Merge? && |f.key| >= 4 && f.key[..4] == ModelPrefix(r) + "_"
              && (ModelPrefix(r) == "PHD" ==> f == Merge("PHD_" + bridgeId, Phd(r).value))
              && (ModelPrefix(r) == "SML" ==> f.record == Sml(r).value)
  {
    var m := ModelPrefix(r);
    if ToFacet(bridgeId, r).Ok? && !ToFacet(bridgeId, r).value.Skip? {
      var k := ToFacet(bridgeId, r).value.key;
      if m == "SML" {
        assert k == m + "_" + Slice(r.uniqueid, None, Some(-5));
      } else {
        assert k == m + "_" + bridgeId;
      }
    }
  }

  function Facets(bridgeId: string, sensors: seq<RawSensor>): (rs: seq<Result<Facet>>)
    ensures |rs| == |sensors| && forall i :: 0 <= i < |sensors| ==> rs[i] == ToFacet(bridgeId, sensors[i])
  {
    seq(|sensors|, i requires 0 <= i < |sensors| => ToFacet(bridgeId, sensors[i]))
  }

  /** What `parse_hue_api_response` returns or raises for the records of one poll of one bridge. */
  function Parsed(bridgeId: string, sensors: seq<RawSensor>): (r: Result<Dict>)
    ensures r.Ok? ==> r.value.Listed() && r.value.Valid()
  {
    CollectResultsSpec(Facets(bridgeId, sensors));
    if AllOk(Facets(bridgeId, sensors)) then
      CollectListed(Values(Facets(bridgeId, sensors)));
      CollectValid(Values(Facets(bridgeId, sensors)));
      CollectResults(Facets(bridgeId, sensors))
    else CollectResults(Facets(bridgeId, sensors))
  }

  /** `parse_hue_api_response` */
  method ParseHueApiResponse(bridgeId: string, sensors: seq<RawSensor>) returns (r: Result<Dict>)
    ensures r == Parsed(bridgeId, sensors)
  {
    var dataDict := EmptyDict;
    var rs := Facets(bridgeId, sensors);
    var i := 0;
    while i < |sensors|
      invariant i <= |sensors|
      invariant CollectResults(rs[..i]) == Ok(dataDict)
    {
      assert rs[..i + 1] == rs[..i] + [ToFacet(bridgeId, sensors[i])];
      CollectResultsAppend(rs[..i], ToFacet(bridgeId, sensors[i]));
      var next := AddSensor(bridgeId, dataDict, sensors[i]);
      if next.Raises? {
        CollectResultsPrefixRaises(rs, i + 1);
        return next;
      }
      dataDict := next.value;
      i := i + 1;
    }
    assert rs[..i] == rs;
    return Ok(dataDict);
  }

  /** The body of the loop for one record. */
  method AddSensor(bridgeId: string, dataDict: Dict, sensor: RawSensor) returns (r: Result<Dict>)
    ensures r == (var f :- ToFacet(bridgeId, sensor); Ok(AddFacet(dataDict, f)))
  {
    var modelId := ModelPrefix(sensor);
    var key, parsed;
    if modelId == "SML" {
      key := modelId + "_" + Slice(sensor.uniqueid, None, Some(-5));
      parsed := Sml(sensor);
    } else if modelId == "PHD" {
      key := modelId + "_" + bridgeId;
      parsed := Phd(sensor);
    } else {
      return Ok(dataDict);
    }
    if parsed.Raises? {
      return Raises(parsed.error);
    }
    if key !in dataDict.items {
      return Ok(dataDict.Assign(key, parsed.value));
    } else {
      return Ok(dataDict.Assign(key, dataDict.items[key] + parsed.value));
    }
  }

  /** The loop raises iff some motion or daylight record has a type its parser does not know. */
  lemma ParsedRaises(bridgeId: string, sensors: seq<RawSensor>)
    ensures Parsed(bridgeId, sensors).Raises? <==>
              exists i :: 0 <= i < |sensors| && ToFacet(bridgeId, sensors[i]).Raises?
    ensures Parsed(bridgeId, sensors).Raises? ==> Parsed(bridgeId, sensors).error == UnboundLocalError
  {
    var rs := Facets(bridgeId, sensors);
    CollectResultsSpec(rs);
    if !AllOk(rs) {
      var i :| 0 <= i < |rs| && rs[i].Raises? && AllOk(rs[..i]) && CollectResults(rs).error == rs[i].error;
      ToFacetSpec(bridgeId, sensors[i]);
    }
  }

  /**
    * All daylight sensors of a bridge share one entry, and since each of their
    * records has the same twelve fields, the entry is the record of the last
    * one: the others are not shown.
    */
  lemma ParsedDaylightLastWins(bridgeId: string, sensors: seq<RawSensor>, i: nat)
    requires Parsed(bridgeId, sensors).Ok? && i < |sensors| && ModelPrefix(sensors[i]) == "PHD"
    requires forall j :: i < j < |sensors| ==> ModelPrefix(sensors[j]) != "PHD"
    ensures var d := Parsed(bridgeId, sensors).value;
            Phd(sensors[i]).Ok? && "PHD_" + bridgeId in d.items && d.items["PHD_" + bridgeId] == Phd(sensors[i]).value
  {
    var rs := Facets(bridgeId, sensors);
    CollectResultsSpec(rs);
    var fs := Values(rs);
    var k := "PHD_" + bridgeId;
    ToFacetSpec(bridgeId, sensors[i]);
    PhdSpec(sensors[i]);
    forall j | i < j < |fs| ensures !Names(fs[j], k) {
      if Names(fs[j], k) {
        DaylightKeyOnlyPhd(bridgeId, sensors[j]);
      }
    }
    forall j | 0 <= j < i && Names(fs[j], k) ensures fs[j].record.Keys <= fs[i].record.Keys {
      DaylightKeyOnlyPhd(bridgeId, sensors[j]);
      PhdSpec(sensors[j]);
    }
    CollectCovered(fs, i);
  }

  /** Only a daylight sensor's facet names the daylight key. */
  lemma DaylightKeyOnlyPhd(bridgeId: string, r: RawSensor)
    requires ToFacet(bridgeId, r).Ok? && Names(ToFacet(bridgeId, r).value, "PHD_" + bridgeId)
    ensures ModelPrefix(r) == "PHD" && ToFacet(bridgeId, r).value.record == Phd(r).value
  {
    ToFacetSpec(bridgeId, r);
    var f := ToFacet(bridgeId, r).value;
    var m := ModelPrefix(r);
    assert ("PHD_" + bridgeId)[..4] == "PHD_";
    assert m + "_" == "PHD_";
    assert m == (m + "_")[..3];
  }

  // ---------------------------------------------------------------------------
  // `HueSensorData.update_bridge`

  /**
    * `update_bridge`: nothing happens when the bridge could not be read or when
    * the parse raises; otherwise the non-geofence records of the bridge are
    * parsed and the changed-flag refresh runs on the result.
    */
  function Poll(s: SensorState, fetched: bool, bridgeId: string, raws: seq<RawSensor>): (o: Outcome)
    ensures o.error.Some? ==> o.state == s
    ensures s.data.Keys <= o.state.data.Keys && s.sensors <= o.state.sensors && s.scheduled <= o.state.scheduled
  {
    if !fetched then Outcome(s, None)
    else
      match Parsed(bridgeId, NonGeofence(raws))
      case Raises(e) => Outcome(s, Some(e))
      case Ok(d) => Refreshed(s, d)
  }

  /** Every poll keeps one entity per stored key and schedules only keys that have an entity. */
  lemma PollConsistent(s: SensorState, fetched: bool, bridgeId: string, raws: seq<RawSensor>)
    requires Consistent(s)
    ensures Consistent(Poll(s, fetched, bridgeId, raws).state)
    ensures forall i :: |s.scheduled| <= i < |Poll(s, fetched, bridgeId, raws).state.scheduled| ==>
                          Poll(s, fetched, bridgeId, raws).state.scheduled[i] in s.sensors
  {
    if fetched && Parsed(bridgeId, NonGeofence(raws)).Ok? {
      RefreshedConsistent(s, Parsed(bridgeId, NonGeofence(raws)).value);
    }
  }

  /** A poll that cannot read the bridge, or whose parse raises, changes nothing. */
  lemma PollFailsAtomically(s: SensorState, fetched: bool, bridgeId: string, raws: seq<RawSensor>)
    requires !fetched || Parsed(bridgeId, NonGeofence(raws)).Raises?
    ensures Poll(s, fetched, bridgeId, raws).state == s
    ensures fetched <==> Poll(s, fetched, bridgeId, raws).error.Some?
  {
  }

  /** `HueSensorData.update_bridge` for the bridge whose id is `bridgeId`; `fetched` is what `update_api` returned. */
  method UpdateBridge(store: FlaggedSensorData, fetched: bool, bridgeId: string, raws: seq<RawSensor>) returns (err: Option<PyError>)
    requires store.Valid()
    modifies store
    ensures store.Valid()
    ensures Outcome(SensorState(store.data, store.sensors, store.scheduled), err)
            == Poll(old(SensorState(store.data, store.sensors, store.scheduled)), fetched, bridgeId, raws)
  {
    if !fetched {
      return None;
    }
    var parsed := ParseHueApiResponse(bridgeId, NonGeofence(raws));
    if parsed.Raises? {
      return Some(parsed.error);
    }
    err := store.Refresh(parsed.value);
  }

  // ---------------------------------------------------------------------------
  // `HueSensor.is_on`

  /**
    * `data and data["model"] in ["SML", "PHD"] and data["changed"]`, then
    * `data["state"] == STATE_ON`; otherwise False.
    */
  function IsOn(data: map<string, Record>, hueId: string): Result<bool> {
    var rec := Get(data, hueId);
    if Falsy(rec) then Ok(false)
    else
      var model :- Index(rec.value, Model);
      if model != VStr("SML") && model != VStr("PHD") then Ok(false)
      else
        var changed :- Index(rec.value, Changed);
        if !Truthy(changed) then Ok(false)
        else
          var state :- Index(rec.value, State);
          Ok(state == VStr(STATE_ON))
  }

  /**
    * An entity reads on iff its record is a motion or daylight record with its
    * flag set and state "on"; the read raises iff the record is non-empty and
    * lacks `model`, or is a motion or daylight record lacking `changed`, or has
    * its flag set and lacks `state`.
    */
  lemma IsOnSpec(data: map<string, Record>, hueId: string)
    ensures IsOn(data, hueId) == Ok(true) <==>
              && hueId in data && Model in data[hueId] && data[hueId][Model] in {VStr("SML"), VStr("PHD")}
              && Changed in data[hueId] && Truthy(data[hueId][Changed])
              && State in data[hueId] && data[hueId][State] == VStr(STATE_ON)
    ensures IsOn(data, hueId).Raises? <==>
              && hueId in data && data[hueId] != map[]
              && (|| Model !in data[hueId]
                  || (data[hueId][Model] in {VStr("SML"), VStr("PHD")}
                      && (Changed !in data[hueId] || (Truthy(data[hueId][Changed]) && State !in data[hueId]))))
  {
  }

  /** A stored motion or daylight record that is the parse with its flag set to `b` reads on iff `b` and its state is "on". */
  lemma IsOnFlag(data: map<string, Record>, k: string, after: Record, b: bool)
    requires k in data && data[k] == after[Changed := VBool(b)]
    requires Model in after && after[Model] in {VStr("SML"), VStr("PHD")}
    ensures IsOn(data, k) == if b then (var state :- Index(after, State); Ok(state == VStr(STATE_ON))) else Ok(false)
  {
    assert Changed in data[k] && data[k][Model] == after[Model];
  }

  /**
    * After a poll that goes through, a motion or daylight entity reads on iff
    * its parsed state is "on" and its flag is set; the flag is cleared, and the
    * entity reads off whatever its state, iff the key was queued with
    * `last_updated` and `state` both unchanged.
    */
  lemma PollIsOn(s: SensorState, bridgeId: string, raws: seq<RawSensor>, k: string)
    requires Parsed(bridgeId, NonGeofence(raws)).Ok? && Poll(s, true, bridgeId, raws).error.None?
    requires var d := Parsed(bridgeId, NonGeofence(raws)).value;
             k in d.items && Model in d.items[k] && d.items[k][Model] in {VStr("SML"), VStr("PHD")}
    ensures var after := Parsed(bridgeId, NonGeofence(raws)).value.items[k];
            var t := Poll(s, true, bridgeId, raws).state;
            && k in t.data && Changed in t.data[k]
            && IsOn(t.data, k) == (if t.data[k][Changed] == VBool(true) then (var state :- Index(after, State); Ok(state == VStr(STATE_ON))) else Ok(false))
            && (t.data[k][Changed] == VBool(false) <==>
                  && k in t.scheduled[|s.scheduled|..] && k in s.data
                  && Get(s.data[k], LastUpdated) == Get(after, LastUpdated) && Get(s.data[k], State) == Get(after, State))
  {
    var d := Parsed(bridgeId, NonGeofence(raws)).value;
    RefreshedStores(s, d, k);
    var t := Poll(s, true, bridgeId, raws).state;
    var v := Flag(Get(s.data, k), d.items[k]).value;
    FlagClears(Get(s.data, k), d.items[k]);
    IsOnFlag(t.data, k, d.items[k], v.record[Changed].b);
  }
}
