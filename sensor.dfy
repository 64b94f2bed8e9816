/**
  * `custom_components/huesensor/sensor.py`: the sensor platform's own parsing
  * of the bridge records (dimmers, taps and Friends-of-Hue switches; motion
  * sensors are recognised but dropped), its `update_bridge`, which is the
  * changed-flag diff of `ChangedFlag`, and the `state` an entity shows.
  */
module Sensor {
  import opened PyBase
  import opened BridgeRecord
  import opened ButtonTables
  import opened Aggregation
  import opened ChangedFlag
  import HueApiResponse
  import Remote

  // ---------------------------------------------------------------------------
  // Parsers: none of them records `last_button_event`

  /** `parse_zgp`: a missing code reads "No data", an unknown one raises KeyError. */
  function Zgp(r: RawSensor): Result<Record> {
    var button :- IndexOr(TAP_BUTTONS, r.state.buttonevent, HueApiResponse.NO_DATA);
    Ok(map[Model := VStr("ZGP"), Name := VStr(r.name), State := button, LastUpdated := UpdatedParts(r)])
  }

  /** `parse_rwl`: the decimal decoding of the event, `None` for a missing or zero event. */
  function Rwl(r: RawSensor): Result<Record> {
    var button :- DimmerButton(r.state.buttonevent, VNone);
    Ok(map[Model := VStr("RWL"), Name := VStr(r.name), State := button, Battery := r.config.battery,
           On := r.config.on, Reachable := r.config.reachable, LastUpdated := UpdatedParts(r)])
  }

  /** `parse_foh`: a missing code reads "No data", an unknown one raises KeyError. */
  function Foh(r: RawSensor): Result<Record> {
    var button :- IndexOr(FOH_BUTTONS, r.state.buttonevent, HueApiResponse.NO_DATA);
    Ok(map[Model := VStr("FOH"), Name := VStr(r.name), State := button, LastUpdated := UpdatedParts(r)])
  }

  /**
    * The tap parser raises exactly on a code outside its table (where the
    * remote platform reads "No data"); otherwise it gives the remote
    * platform's record without `last_button_event`.
    */
  lemma ZgpAgrees(r: RawSensor)
    ensures var e := r.state.buttonevent;
            Zgp(r).Ok? <==> e.None? || e.value in TAP_BUTTONS
    ensures Zgp(r).Ok? ==> Zgp(r).value == Remote.Zgp(r) - {LastButtonEvent}
  {
    if Zgp(r).Ok? {
      assert Zgp(r).value.Keys == (Remote.Zgp(r) - {LastButtonEvent}).Keys;
    }
  }

  /** The same for the Friends-of-Hue parser and the newest revision's. */
  lemma FohAgrees(r: RawSensor)
    ensures var e := r.state.buttonevent;
            Foh(r).Ok? <==> e.None? || e.value in FOH_BUTTONS
    ensures Foh(r).Ok? ==> Foh(r).value == HueApiResponse.Foh(r) - {LastButtonEvent}
  {
    if Foh(r).Ok? {
      assert Foh(r).value.Keys == (HueApiResponse.Foh(r) - {LastButtonEvent}).Keys;
    }
  }

  /** The dimmer parser raises exactly when the remote platform's does, and otherwise gives its record without `last_button_event`. */
  lemma RwlAgrees(r: RawSensor)
    ensures Rwl(r).Ok? <==> Remote.Rwl(r).Ok?
    ensures Rwl(r).Ok? ==> Rwl(r).value == Remote.Rwl(r).value - {LastButtonEvent}
  {
    if Rwl(r).Ok? {
      assert Rwl(r).value.Keys == (Remote.Rwl(r).value - {LastButtonEvent}).Keys;
    }
  }

  // ---------------------------------------------------------------------------
  // The aggregation loop

  /**
    * One iteration of `parse_hue_api_response`: RWL and ZGP records are
    * assigned under the model and all but the last five characters of
    * `uniqueid`, FOH records under the model and the last five characters; SML
    * records and every other model are dropped.
    */
  function ToFacet(r: RawSensor): Result<Facet> {
    var modelId := ModelPrefix(r);
    var u := r.uniqueid;
    if modelId == "RWL" || modelId == "SML" || modelId == "ZGP" then
      var key := modelId + "_" + Slice(u, None, Some(-5));
      if modelId == "RWL" then
        var rec :- Rwl(r);
        Ok(Put(key, rec))
      else if modelId == "ZGP" then
        var rec :- Zgp(r);
        Ok(Put(key, rec))
      else Ok(Skip)
    else if modelId == "FOH" then
      var rec :- Foh(r);
      Ok(Put(modelId + "_" + Slice(u, Some(-5), None), rec))
    else Ok(Skip)
  }

  /** The part of `uniqueid` after `"<model>_"` in the key: the last five characters for FOH, all but them otherwise. */
  function KeySuffix(modelId: string, u: string): string {
    if modelId == "FOH" then (if |u| >= 5 then u[|u| - 5..] else u)
    else if |u| >= 5 then u[..|u| - 5] else []
  }

  /**
    * A record raises iff its parser raises; it is dropped iff its model is not
    * RWL, ZGP or FOH; otherwise it is assigned (never merged) under its
    * model, `"_"` and the model's part of `uniqueid`.
    */
  lemma ToFacetSpec(r: RawSensor)
    ensures var m := ModelPrefix(r);
            ToFacet(r).Raises? <==> (m == "RWL" && Rwl(r).Raises?) || (m == "ZGP" && Zgp(r).Raises?) || (m == "FOH" && Foh(r).Raises?)
    ensures ToFacet(r) == Ok(Skip) <==> ModelPrefix(r) !in {"RWL", "ZGP", "FOH"}
    ensures ToFacet(r).Ok? && !ToFacet(r).value.Skip? ==>
              var f := ToFacet(r).value;
              && f.Put?
              && f.key == ModelPrefix(r) + "_" + KeySuffix(ModelPrefix(r), r.uniqueid)
              && f.record == match ModelPrefix(r) case "RWL" => Rwl(r).value case "ZGP" => Zgp(r).value case _ => Foh(r).value
  {
    var u := r.uniqueid;
    if |u| >= 5 {
      SliceDropLast(u, 5);
      SliceLast(u, 5);
    }
  }

  function Facets(sensors: seq<RawSensor>): (rs: seq<Result<Facet>>)
    ensures |rs| == |sensors| && forall i :: 0 <= i < |sensors| ==> rs[i] == ToFacet(sensors[i])
  {
    seq(|sensors|, i requires 0 <= i < |sensors| => ToFacet(sensors[i]))
  }

  /** What `parse_hue_api_response` returns or raises for the records of one poll. */
  function Parsed(sensors: seq<RawSensor>): (r: Result<Dict>)
    ensures r.Ok? ==> r.value.Listed() && r.value.Valid()
  {
    CollectResultsSpec(Facets(sensors));
    if AllOk(Facets(sensors)) then
      CollectListed(Values(Facets(sensors)));
      CollectValid(Values(Facets(sensors)));
      CollectResults(Facets(sensors))
    else CollectResults(Facets(sensors))
  }

  /** `parse_hue_api_response` */
  method ParseHueApiResponse(sensors: seq<RawSensor>) returns (r: Result<Dict>)
    ensures r == Parsed(sensors)
  {
    var dataDict := EmptyDict;
    var rs := Facets(sensors);
    var i := 0;
    while i < |sensors|
      invariant i <= |sensors|
      invariant CollectResults(rs[..i]) == Ok(dataDict)
    {
      assert rs[..i + 1] == rs[..i] + [ToFacet(sensors[i])];
      CollectResultsAppend(rs[..i], ToFacet(sensors[i]));
      var next := AddSensor(dataDict, sensors[i]);
      if next.Raises? {
        CollectResultsPrefixRaises(rs, i + 1);
        return next;
      }
      dataDict := next.value;
      i := i + 1;
    }
    assert rs[..i] == rs;
    return Ok(dataDict);
  }

  /** The body of the loop for one record. */
  method AddSensor(dataDict: Dict, sensor: RawSensor) returns (r: Result<Dict>)
    ensures r == (var f :- ToFacet(sensor); Ok(AddFacet(dataDict, f)))
  {
    var modelId := ModelPrefix(sensor);
    if modelId == "RWL" || modelId == "SML" || modelId == "ZGP" {
      var key := modelId + "_" + Slice(sensor.uniqueid, None, Some(-5));
      if modelId == "RWL" {
        var parsed := Rwl(sensor);
        if parsed.Raises? {
          return Raises(parsed.error);
        }
        return Ok(dataDict.Assign(key, parsed.value));
      } else if modelId == "ZGP" {
        var parsed := Zgp(sensor);
        if parsed.Raises? {
          return Raises(parsed.error);
        }
        return Ok(dataDict.Assign(key, parsed.value));
      }
    } else if modelId == "FOH" {
      var key := modelId + "_" + Slice(sensor.uniqueid, Some(-5), None);
      var parsed := Foh(sensor);
      if parsed.Raises? {
        return Raises(parsed.error);
      }
      return Ok(dataDict.Assign(key, parsed.value));
    }
    return Ok(dataDict);
  }

  /** The loop raises iff some switch record carries a code its parser cannot decode. */
  lemma ParsedRaises(sensors: seq<RawSensor>)
    ensures Parsed(sensors).Raises? <==> exists i :: 0 <= i < |sensors| && ToFacet(sensors[i]).Raises?
  {
    CollectResultsSpec(Facets(sensors));
  }

  /** The keys of the result are the keys of the RWL, ZGP and FOH records; all other records leave no trace. */
  lemma ParsedKeys(sensors: seq<RawSensor>, k: string)
    requires Parsed(sensors).Ok?
    ensures k in Parsed(sensors).value.items <==>
              exists i :: 0 <= i < |sensors| && ToFacet(sensors[i]).Ok? && Names(ToFacet(sensors[i]).value, k)
  {
    var rs := Facets(sensors);
    CollectResultsSpec(rs);
    var fs := Values(rs);
    CollectKeys(fs, k);
    if exists i :: 0 <= i < |fs| && Names(fs[i], k) {
      var i :| 0 <= i < |fs| && Names(fs[i], k);
      assert ToFacet(sensors[i]).Ok? && Names(ToFacet(sensors[i]).value, k);
    }
  }

  /** No merging happens: the last record of a key decides its entry outright. */
  lemma ParsedLastWins(sensors: seq<RawSensor>, i: nat)
    requires Parsed(sensors).Ok? && i < |sensors|
    requires ToFacet(sensors[i]).Ok? && !ToFacet(sensors[i]).value.Skip?
    requires forall j :: i < j < |sensors| && ToFacet(sensors[j]).Ok? ==> !Names(ToFacet(sensors[j]).value, ToFacet(sensors[i]).value.key)
    ensures var f := ToFacet(sensors[i]).value;
            f.key in Parsed(sensors).value.items && Parsed(sensors).value.items[f.key] == f.record
  {
    var rs := Facets(sensors);
    CollectResultsSpec(rs);
    var fs := Values(rs);
    ToFacetSpec(sensors[i]);
    CollectReplaced(fs, i);
  }

  // ---------------------------------------------------------------------------
  // `HueSensorData.update_bridge`

  /**
    * `update_bridge`: nothing happens when the bridge could not be read or when
    * the parse raises; otherwise the non-geofence records are parsed and the
    * changed-flag refresh runs on the result.
    */
  function Poll(s: SensorState, fetched: bool, raws: seq<RawSensor>): (o: Outcome)
    ensures o.error.Some? ==> o.state == s
    ensures s.data.Keys <= o.state.data.Keys && s.sensors <= o.state.sensors && s.scheduled <= o.state.scheduled
  {
    if !fetched then Outcome(s, None)
    else
      match Parsed(NonGeofence(raws))
      case Raises(e) => Outcome(s, Some(e))
      case Ok(d) => Refreshed(s, d)
  }

  /** Every poll keeps one entity per stored key and schedules only keys that have an entity. */
  lemma PollConsistent(s: SensorState, fetched: bool, raws: seq<RawSensor>)
    requires Consistent(s)
    ensures Consistent(Poll(s, fetched, raws).state)
    ensures forall i :: |s.scheduled| <= i < |Poll(s, fetched, raws).state.scheduled| ==> Poll(s, fetched, raws).state.scheduled[i] in s.sensors
  {
    if fetched && Parsed(NonGeofence(raws)).Ok? {
      RefreshedConsistent(s, Parsed(NonGeofence(raws)).value);
    }
  }

  /** A poll that cannot read the bridge, or whose parse raises, changes nothing; only the parse's error is reported. */
  lemma PollFailsAtomically(s: SensorState, fetched: bool, raws: seq<RawSensor>)
    requires !fetched || Parsed(NonGeofence(raws)).Raises?
    ensures Poll(s, fetched, raws).state == s
    ensures fetched <==> Poll(s, fetched, raws).error.Some?
  {
  }

  /** `HueSensorData.update_bridge` on the platform's data object; `fetched` is what `update_api` returned. */
  method UpdateBridge(store: FlaggedSensorData, fetched: bool, raws: seq<RawSensor>) returns (err: Option<PyError>)
    requires store.Valid()
    modifies store
    ensures store.Valid()
    ensures Outcome(SensorState(store.data, store.sensors, store.scheduled), err)
            == Poll(old(SensorState(store.data, store.sensors, store.scheduled)), fetched, raws)
  {
    if !fetched {
      return None;
    }
    var parsed := ParseHueApiResponse(NonGeofence(raws));
    if parsed.Raises? {
      return Some(parsed.error);
    }
    err := store.Refresh(parsed.value);
  }

  // ---------------------------------------------------------------------------
  // `HueSensor.state`

  /** `data = self._data.get(hue_id); if data and data["changed"]: return data["state"]`, else `None`. */
  function EntityState(data: map<string, Record>, hueId: string): Result<Value> {
    var rec := Get(data, hueId);
    if Falsy(rec) then Ok(VNone)
    else
      var changed :- Index(rec.value, Changed);
      if Truthy(changed) then Index(rec.value, State) else Ok(VNone)
  }

  /**
    * An entity with no record, or an empty one, reads `None`; otherwise reading
    * the state raises iff the record lacks `changed`, or has it set and lacks
    * `state`; a set flag shows the stored state and a cleared one `None`.
    */
  lemma EntityStateSpec(data: map<string, Record>, hueId: string)
    ensures hueId !in data || data[hueId] == map[] ==> EntityState(data, hueId) == Ok(VNone)
    ensures hueId in data && data[hueId] != map[] ==>
              var rec := data[hueId];
              && (EntityState(data, hueId).Raises? <==> Changed !in rec || (Truthy(rec[Changed]) && State !in rec))
              && (Changed in rec && !Truthy(rec[Changed]) ==> EntityState(data, hueId) == Ok(VNone))
              && (Changed in rec && Truthy(rec[Changed]) && State in rec ==> EntityState(data, hueId) == Ok(rec[State]))
  {
  }

  /**
    * After a poll that goes through, the entity of every parsed key shows the
    * parsed state while the stored flag is set, and `None` once it is cleared;
    * the flag is cleared iff the key was queued with `last_updated` and `state`
    * both unchanged, so such an entity shows `None` until its record changes.
    */
  lemma PollShowsState(s: SensorState, raws: seq<RawSensor>, k: string)
    requires Parsed(NonGeofence(raws)).Ok? && Poll(s, true, raws).error.None?
    requires k in Parsed(NonGeofence(raws)).value.items
    ensures var after := Parsed(NonGeofence(raws)).value.items[k];
            var t := Poll(s, true, raws).state;
            && k in t.data && Changed in t.data[k]
            && EntityState(t.data, k) == (if t.data[k][Changed] == VBool(true) then Index(after, State) else Ok(VNone))
            && (t.data[k][Changed] == VBool(false) <==>
                  && k in t.scheduled[|s.scheduled|..] && k in s.data
                  && Get(s.data[k], LastUpdated) == Get(after, LastUpdated) && Get(s.data[k], State) == Get(after, State))
  {
    var d := Parsed(NonGeofence(raws)).value;
    RefreshedStores(s, d, k);
    var t := Poll(s, true, raws).state;
    var v := Flag(Get(s.data, k), d.items[k]).value;
    FlagClears(Get(s.data, k), d.items[k]);
    EntityStateFlag(t.data, k, d.items[k], v.record[Changed].b);
  }

  /** A stored record that is the parse with its flag set to `b` shows the parsed state iff `b`. */
  lemma EntityStateFlag(data: map<string, Record>, k: string, after: Record, b: bool)
    requires k in data && data[k] == after[Changed := VBool(b)]
    ensures EntityState(data, k) == if b then Index(after, State) else Ok(VNone)
  {
    assert Changed in data[k];
  }
}
