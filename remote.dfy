/**
  * `custom_components/huesensor/remote.py`: the remote platform's own parsing
  * of the bridge records (switches and dials only, motion sensors are dropped)
  * and the poll-to-poll diff of `HueRemoteData.update_bridge`, which stores
  * every parsed record and fires a button event for each record it reports.
  */
module Remote {
  import opened PyBase
  import opened BridgeRecord
  import opened ButtonTables
  import opened Aggregation
  import HueApiResponse

  // ---------------------------------------------------------------------------
  // Parsers (`parse_foh` and `parse_z3_rotary` are the same as the newest
  // revision's `HueApiResponse.Foh` and `HueApiResponse.Z3Rotary`)

  /** `parse_zgp`, with the literal tap table; an unknown or missing code reads "No data". */
  function Zgp(r: RawSensor): Record {
    var button := GetOr(TAP_BUTTONS, r.state.buttonevent, HueApiResponse.NO_DATA);
    map[Model := VStr("ZGP"), Name := VStr(r.name), State := button, LastButtonEvent := button,
        LastUpdated := UpdatedParts(r)]
  }

  /** `parse_rwl`: the decimal decoding of the event, `None` for a missing or zero event. */
  function Rwl(r: RawSensor): Result<Record> {
    var button :- DimmerButton(r.state.buttonevent, VNone);
    Ok(map[Model := VStr("RWL"), Name := VStr(r.name), State := button, Battery := r.config.battery,
           On := r.config.on, Reachable := r.config.reachable, LastButtonEvent := button,
           LastUpdated := UpdatedParts(r)])
  }

  /** `parse_z3_switch`: the button only, with no `model`, `name` or `last_updated`. */
  function Z3Switch(r: RawSensor): Record {
    var button := GetOr(Z3_BUTTON, r.state.buttonevent, HueApiResponse.NO_DATA);
    map[LastButtonEvent := button, State := button]
  }

  /** The tap switch: codes 34, 16, 17, 18 are buttons 1 to 4, anything else reads "No data". */
  lemma ZgpButton(r: RawSensor)
    ensures var e := r.state.buttonevent;
            Zgp(r)[State] == Zgp(r)[LastButtonEvent]
            && Zgp(r)[State] == if e == Some(34) then VStr("1_click") else if e == Some(16) then VStr("2_click")
                               else if e == Some(17) then VStr("3_click") else if e == Some(18) then VStr("4_click")
                               else HueApiResponse.NO_DATA
  {
  }

  /**
    * The dimmer: a missing or zero event reads `None`; a positive one is its
    * leading digit and the suffix of its last digit, and a last digit above 3
    * raises KeyError. State and last button event always agree.
    */
  lemma RwlButton(r: RawSensor)
    ensures var e := r.state.buttonevent;
            (e.None? || e.value == 0) ==> Rwl(r).Ok? && Rwl(r).value[State] == VNone
    ensures var e := r.state.buttonevent;
            e.Some? && e.value > 0 ==> (Rwl(r).Ok? <==> e.value % 10 < 4)
    ensures var e := r.state.buttonevent;
            e.Some? && e.value > 0 && e.value % 10 < 4 ==>
              Rwl(r).value[State] == VStr(ButtonTag(LeadingDigit(e.value), Suffix(e.value % 10)))
    ensures Rwl(r).Ok? ==> Rwl(r).value[State] == Rwl(r).value[LastButtonEvent]
  {
    DimmerButtonSpec(r.state.buttonevent, VNone);
  }

  // ---------------------------------------------------------------------------
  // The aggregation loop

  /**
    * One iteration of `parse_hue_api_response`: RWL, ROM, FOH and ZGP records
    * are assigned under their key, the two Lutron Aurora records are merged,
    * and any other record (motion sensors included) is dropped.
    */
  function ToFacet(r: RawSensor): Result<Facet> {
    var modelId := ModelPrefix(r);
    var u := r.uniqueid;
    if modelId == "RWL" || modelId == "ROM" then
      var rec :- Rwl(r);
      Ok(Put(modelId + "_" + Slice(u, None, Some(-5)), rec))
    else if modelId == "FOH" || modelId == "ZGP" then
      var key := modelId + "_" + Slice(u, Some(-14), Some(-3));
      Ok(Put(key, if modelId == "FOH" then HueApiResponse.Foh(r) else Zgp(r)))
    else if modelId == "Z3-" then
      if r.sensorType == "ZLLRelativeRotary" then Ok(Merge(modelId + "_" + Slice(u, None, Some(-5)), HueApiResponse.Z3Rotary(r)))
      else Ok(Merge(modelId + "_" + u, Z3Switch(r)))
    else Ok(Skip)
  }

  /**
    * The remote platform keys a record as the newest revision does, keeps only
    * the switch and dial families, replaces on RWL, ROM, FOH and ZGP and merges
    * on Z3-, and fails only on a dimmer event it cannot decode.
    */
  lemma ToFacetSpec(r: RawSensor)
    ensures ToFacet(r).Raises? <==> ModelPrefix(r) in {"RWL", "ROM"} && Rwl(r).Raises?
    ensures ToFacet(r) == Ok(Skip) <==> ModelPrefix(r) !in {"RWL", "ROM", "FOH", "ZGP", "Z3-"}
    ensures ToFacet(r).Ok? && !ToFacet(r).value.Skip? ==>
              && HueApiResponse.IdentRawSensor(r).Known?
              && ToFacet(r).value.key == HueApiResponse.IdentRawSensor(r).key
              && (ToFacet(r).value.Merge? <==> ModelPrefix(r) == "Z3-")
  {
  }

  /** The key of every facet starts with the record's three-letter model prefix. */
  lemma FacetKeyPrefix(r: RawSensor)
    requires ToFacet(r).Ok? && !ToFacet(r).value.Skip?
    ensures |ModelPrefix(r)| == 3 && ToFacet(r).value.key[..3] == ModelPrefix(r)
  {
    ToFacetSpec(r);
    var m := ModelPrefix(r);
    var k := ToFacet(r).value.key;
    if m == "Z3-" {
      if r.sensorType == "ZLLRelativeRotary" {
        assert k == m + ("_" + Slice(r.uniqueid, None, Some(-5)));
      } else {
        assert k == m + ("_" + r.uniqueid);
      }
    } else if m == "FOH" || m == "ZGP" {
      assert k == m + ("_" + Slice(r.uniqueid, Some(-14), Some(-3)));
    } else {
      assert k == m + ("_" + Slice(r.uniqueid, None, Some(-5)));
    }
  }

  function Facets(sensors: seq<RawSensor>): (rs: seq<Result<Facet>>)
    ensures |rs| == |sensors| && forall i :: 0 <= i < |sensors| ==> rs[i] == ToFacet(sensors[i])
  {
    seq(|sensors|, i requires 0 <= i < |sensors| => ToFacet(sensors[i]))
  }

  /** What `parse_hue_api_response` returns or raises for the records of one poll. */
  function Parsed(sensors: seq<RawSensor>): (r: Result<Dict>)
    ensures r.Ok? ==> r.value.Listed()
  {
    CollectResultsSpec(Facets(sensors));
    if AllOk(Facets(sensors)) then CollectListed(Values(Facets(sensors))); CollectResults(Facets(sensors))
    else CollectResults(Facets(sensors))
  }

  /** `parse_hue_api_response` */
  method ParseHueApiResponse(sensors: seq<RawSensor>) returns (r: Result<Dict>)
    ensures r == Parsed(sensors)
  {
    var dataDict := EmptyDict;
    var rs := Facets(sensors);
    var i := 0;
    while i < |sensors|
      invariant i <= |sensors|
      invariant CollectResults(rs[..i]) == Ok(dataDict)
    {
      assert rs[..i + 1] == rs[..i] + [ToFacet(sensors[i])];
      CollectResultsAppend(rs[..i], ToFacet(sensors[i]));
      var next := AddSensor(dataDict, sensors[i]);
      if next.Raises? {
        CollectResultsPrefixRaises(rs, i + 1);
        return next;
      }
      dataDict := next.value;
      i := i + 1;
    }
    assert rs[..i] == rs;
    return Ok(dataDict);
  }

  /** The body of the loop for one record. */
  method AddSensor(dataDict: Dict, sensor: RawSensor) returns (r: Result<Dict>)
    ensures r == (var f :- ToFacet(sensor); Ok(AddFacet(dataDict, f)))
  {
    var modelId := ModelPrefix(sensor);
    if modelId == "RWL" || modelId == "ROM" {
      var key := modelId + "_" + Slice(sensor.uniqueid, None, Some(-5));
      var parsed := Rwl(sensor);
      if parsed.Raises? {
        return Raises(parsed.error);
      }
      return Ok(dataDict.Assign(key, parsed.value));
    } else if modelId == "FOH" || modelId == "ZGP" {
      var key := modelId + "_" + Slice(sensor.uniqueid, Some(-14), Some(-3));
      if modelId == "FOH" {
        return Ok(dataDict.Assign(key, HueApiResponse.Foh(sensor)));
      } else {
        return Ok(dataDict.Assign(key, Zgp(sensor)));
      }
    } else if modelId == "Z3-" {
      var key, keyValue;
      if sensor.sensorType == "ZLLRelativeRotary" {
        key := modelId + "_" + Slice(sensor.uniqueid, None, Some(-5));
        keyValue := HueApiResponse.Z3Rotary(sensor);
      } else {
        key := modelId + "_" + sensor.uniqueid;
        keyValue := Z3Switch(sensor);
      }
      if key in dataDict.items {
        return Ok(dataDict.Assign(key, dataDict.items[key] + keyValue));
      } else {
        return Ok(dataDict.Assign(key, keyValue));
      }
    }
    return Ok(dataDict);
  }

  /** The loop raises iff some record is a dimmer whose event cannot be decoded. */
  lemma ParsedRaises(sensors: seq<RawSensor>)
    ensures Parsed(sensors).Raises? <==>
              exists i :: 0 <= i < |sensors| && ModelPrefix(sensors[i]) in {"RWL", "ROM"} && Rwl(sensors[i]).Raises?
  {
    var rs := Facets(sensors);
    CollectResultsSpec(rs);
    forall i | 0 <= i < |sensors| ensures rs[i].Raises? <==> ModelPrefix(sensors[i]) in {"RWL", "ROM"} && Rwl(sensors[i]).Raises? {
      ToFacetSpec(sensors[i]);
    }
  }

  /** The keys of the result are the keys of the switch and dial records; all other records leave no trace. */
  lemma ParsedKeys(sensors: seq<RawSensor>, k: string)
    requires Parsed(sensors).Ok?
    ensures k in Parsed(sensors).value.items <==>
              exists i :: 0 <= i < |sensors| && ToFacet(sensors[i]).Ok? && Names(ToFacet(sensors[i]).value, k)
  {
    var rs := Facets(sensors);
    CollectResultsSpec(rs);
    var fs := Values(rs);
    CollectKeys(fs, k);
    if exists i :: 0 <= i < |fs| && Names(fs[i], k) {
      var i :| 0 <= i < |fs| && Names(fs[i], k);
      assert ToFacet(sensors[i]).Ok? && Names(ToFacet(sensors[i]).value, k);
    }
  }

  /** An RWL, ROM, FOH or ZGP record that no later record of its key follows decides the entry outright. */
  lemma ParsedLastPutWins(sensors: seq<RawSensor>, i: nat)
    requires Parsed(sensors).Ok? && i < |sensors|
    requires ToFacet(sensors[i]).Ok? && ToFacet(sensors[i]).value.Put?
    requires forall j :: i < j < |sensors| && ToFacet(sensors[j]).Ok? ==> !Names(ToFacet(sensors[j]).value, ToFacet(sensors[i]).value.key)
    ensures var f := ToFacet(sensors[i]).value;
            f.key in Parsed(sensors).value.items && Parsed(sensors).value.items[f.key] == f.record
  {
    var rs := Facets(sensors);
    CollectResultsSpec(rs);
    var fs := Values(rs);
    CollectReplaced(fs, i);
  }

  /**
    * The Lutron Aurora entry is the shallow merge of its records: a field of a
    * Z3- record that no later record of the key carries survives.
    */
  lemma ParsedZ3Merged(sensors: seq<RawSensor>, i: nat, fld: Field)
    requires Parsed(sensors).Ok? && i < |sensors| && ModelPrefix(sensors[i]) == "Z3-"
    requires var f := ToFacet(sensors[i]).value; fld in f.record
    requires forall j :: i < j < |sensors| && ToFacet(sensors[j]).Ok? && Names(ToFacet(sensors[j]).value, ToFacet(sensors[i]).value.key)
                         ==> fld !in ToFacet(sensors[j]).value.record
    ensures var f := ToFacet(sensors[i]).value;
            f.key in Parsed(sensors).value.items && fld in Parsed(sensors).value.items[f.key]
            && Parsed(sensors).value.items[f.key][fld] == f.record[fld]
  {
    var rs := Facets(sensors);
    CollectResultsSpec(rs);
    var fs := Values(rs);
    var k := fs[i].key;
    ToFacetSpec(sensors[i]);
    FacetKeyPrefix(sensors[i]);
    forall j | 0 <= j < |fs| && Names(fs[j], k) ensures fs[j].Merge? {
      FacetKeyPrefix(sensors[j]);
      ToFacetSpec(sensors[j]);
    }
    assert AllMerge(fs, k);
    LastWithIsLast(fs, k, fld, i);
    CollectMerged(fs, k, fld);
  }

  // ---------------------------------------------------------------------------
  // The diff of `HueRemoteData.update_bridge`

  /**
    * Whether a key is reported: it was stored before, the record differs, and
    * `last_updated` and `state` are not both unchanged. Reading a missing field
    * raises KeyError; `and` reads `state` only when `last_updated` is equal.
    */
  function Reported(before: Option<Record>, after: Record): Result<bool> {
    if Falsy(before) || before.value == after then Ok(false)
    else
      var beforeUpdated :- Index(before.value, LastUpdated);
      var afterUpdated :- Index(after, LastUpdated);
      if beforeUpdated != afterUpdated then Ok(true)
      else
        var beforeState :- Index(before.value, State);
        var afterState :- Index(after, State);
        Ok(beforeState != afterState)
  }

  /** A key is reported iff all three conditions hold, and the comparison raises iff it needs a missing field. */
  lemma ReportedSpec(before: Option<Record>, after: Record)
    ensures Reported(before, after) == Ok(true) <==>
              && !Falsy(before) && before.value != after
              && LastUpdated in before.value && LastUpdated in after
              && (before.value[LastUpdated] != after[LastUpdated]
                  || (State in before.value && State in after && before.value[State] != after[State]))
    ensures Reported(before, after).Raises? <==>
              && !Falsy(before) && before.value != after
              && (LastUpdated !in before.value || LastUpdated !in after
                  || (before.value[LastUpdated] == after[LastUpdated] && (State !in before.value || State !in after)))
  {
  }

  /** `updated_sensors`: the reported keys in the order of the parse, or the first KeyError. */
  function ReportedKeys(stored: map<string, Record>, incoming: map<string, Record>, keys: seq<string>): (r: Result<seq<string>>)
    requires forall i :: 0 <= i < |keys| ==> keys[i] in incoming
    ensures r.Ok? ==> forall i :: 0 <= i < |r.value| ==> r.value[i] in incoming
    decreases |keys|
  {
    if keys == [] then Ok([])
    else
      var prev :- ReportedKeys(stored, incoming, keys[..|keys| - 1]);
      var k := keys[|keys| - 1];
      var reported :- Reported(Get(stored, k), incoming[k]);
      Ok(if reported then prev + [k] else prev)
  }

  /** The list holds exactly the keys that pass `Reported`, and it fails iff one comparison raises. */
  lemma {:induction false} ReportedKeysSpec(stored: map<string, Record>, incoming: map<string, Record>, keys: seq<string>)
    requires forall i :: 0 <= i < |keys| ==> keys[i] in incoming
    ensures ReportedKeys(stored, incoming, keys).Ok? <==>
              forall i :: 0 <= i < |keys| ==> Reported(Get(stored, keys[i]), incoming[keys[i]]).Ok?
    ensures ReportedKeys(stored, incoming, keys).Ok? ==>
              forall k :: k in ReportedKeys(stored, incoming, keys).value <==>
                            k in keys && Reported(Get(stored, k), incoming[k]) == Ok(true)
    decreases |keys|
  {
    if keys != [] {
      var init := keys[..|keys| - 1];
      var k := keys[|keys| - 1];
      ReportedKeysSpec(stored, incoming, init);
      assert keys == init + [k];
      if ReportedKeys(stored, incoming, init).Ok? && !Reported(Get(stored, k), incoming[k]).Ok? {
        assert !Reported(Get(stored, keys[|keys| - 1]), incoming[keys[|keys| - 1]]).Ok?;
      }
      if !ReportedKeys(stored, incoming, init).Ok? {
        var i :| 0 <= i < |init| && !Reported(Get(stored, init[i]), incoming[init[i]]).Ok?;
        assert keys[i] == init[i];
      }
    }
  }

  /** Once a prefix of the keys raises, the whole diff raises with that error. */
  lemma {:induction false} ReportedKeysPrefixRaises(stored: map<string, Record>, incoming: map<string, Record>, keys: seq<string>, n: nat)
    requires forall i :: 0 <= i < |keys| ==> keys[i] in incoming
    requires n <= |keys| && ReportedKeys(stored, incoming, keys[..n]).Raises?
    ensures ReportedKeys(stored, incoming, keys) == ReportedKeys(stored, incoming, keys[..n])
    decreases |keys|
  {
    if n < |keys| {
      var init := keys[..|keys| - 1];
      assert init[..n] == keys[..n];
      ReportedKeysPrefixRaises(stored, incoming, init, n);
    } else {
      assert keys[..n] == keys;
    }
  }

  /** What `hass.bus.async_fire(HASS_BUTTON_EVENT, ...)` carries: the device key and its stored state. */
  datatype ButtonEvent = ButtonEvent(hueId: string, buttonEvent: Value)

  /** The index of the first reported key whose stored record has no `state` (where firing raises), or `|ids|`. */
  function FirstWithoutState(data: map<string, Record>, ids: seq<string>): (p: nat)
    requires forall i :: 0 <= i < |ids| ==> ids[i] in data
    ensures p <= |ids|
    ensures forall j :: 0 <= j < p ==> State in data[ids[j]]
    ensures p < |ids| ==> State !in data[ids[p]]
    decreases |ids|
  {
    if ids == [] || State !in data[ids[0]] then 0 else 1 + FirstWithoutState(data, ids[1..])
  }

  /** The events fired for keys whose records all carry a state. */
  function Events(data: map<string, Record>, ids: seq<string>): (es: seq<ButtonEvent>)
    requires forall i :: 0 <= i < |ids| ==> ids[i] in data && State in data[ids[i]]
    ensures |es| == |ids|
  {
    seq(|ids|, i requires 0 <= i < |ids| && ids[i] in data && State in data[ids[i]] => ButtonEvent(ids[i], data[ids[i]][State]))
  }

  /**
    * The keys whose entity the firing loop schedules for a state refresh: every
    * reported key before the first one without a state, and that one too, since
    * its refresh is scheduled before its state is read.
    */
  function ScheduledKeys(ids: seq<string>, p: nat): (ks: seq<string>)
    requires p <= |ids|
    ensures |ks| == if p < |ids| then p + 1 else p
    ensures forall i :: 0 <= i < |ks| ==> ks[i] == ids[i]
  {
    if p < |ids| then ids[..p + 1] else ids
  }

  /**
    * The platform's state between polls: `self.data`, the keys of `self.sensors`,
    * the keys whose entity was scheduled for a refresh, and the events fired so far.
    */
  datatype RemoteState = RemoteState(data: map<string, Record>, sensors: set<string>, scheduled: seq<string>, fired: seq<ButtonEvent>)

  /** The state after a poll and the exception the poll raised, if any. */
  datatype Outcome = Outcome(state: RemoteState, error: Option<PyError>)

  /**
    * `update_bridge`: nothing happens when the bridge could not be read or when
    * the parse or the diff raises; otherwise every parsed record is stored, the
    * new keys get an entity, and each reported key has its entity scheduled for
    * a refresh and an event fired, until one whose record has no `state` raises
    * KeyError after its refresh is scheduled.
    */
  function Poll(s: RemoteState, fetched: bool, raws: seq<RawSensor>): (o: Outcome)
  {
    var parsed := Parsed(NonGeofence(raws));
    if !fetched then Outcome(s, None)
    else if parsed.Raises? then Outcome(s, Some(parsed.error))
    else
      var d := parsed.value;
      var reported := ReportedKeys(s.data, d.items, d.keys);
      if reported.Raises? then Outcome(s, Some(reported.error))
      else
        var data := s.data + d.items;
        var p := FirstWithoutState(data, reported.value);
        Outcome(RemoteState(data, s.sensors + (d.items.Keys - s.data.Keys), s.scheduled + ScheduledKeys(reported.value, p),
                            s.fired + Events(data, reported.value[..p])),
                if p < |reported.value| then Some(KeyError) else None)
  }

  /**
    * A poll only adds: no stored key or entity is dropped, nothing scheduled or
    * fired is taken back, and every event fired follows its key's scheduled refresh.
    */
  lemma PollGrows(s: RemoteState, fetched: bool, raws: seq<RawSensor>)
    ensures var o := Poll(s, fetched, raws);
            && s.data.Keys <= o.state.data.Keys && s.sensors <= o.state.sensors
            && s.scheduled <= o.state.scheduled && s.fired <= o.state.fired
            && |o.state.fired| - |s.fired| <= |o.state.scheduled| - |s.scheduled|
  {
  }

  /** An entity exists for exactly the stored keys, so `self.sensors[entity_id]` never raises. */
  predicate Consistent(s: RemoteState) {
    s.sensors == s.data.Keys
  }

  /** Every poll keeps one entity per stored key. */
  lemma PollConsistent(s: RemoteState, fetched: bool, raws: seq<RawSensor>)
    requires Consistent(s)
    ensures Consistent(Poll(s, fetched, raws).state)
  {
  }

  /**
    * A poll that goes through stores every parsed record, whether reported or
    * not, keeps the stored keys this poll did not see, and adds an entity for
    * exactly the parsed keys that were not stored.
    */
  lemma PollStores(s: RemoteState, raws: seq<RawSensor>, k: string)
    requires Parsed(NonGeofence(raws)).Ok?
    requires var d := Parsed(NonGeofence(raws)).value;
             ReportedKeys(s.data, d.items, d.keys).Ok?
    ensures var d := Parsed(NonGeofence(raws)).value;
            var t := Poll(s, true, raws).state;
            && (k in d.items ==> k in t.data && t.data[k] == d.items[k])
            && (k !in d.items ==> (k in t.data <==> k in s.data) && (k in s.data ==> t.data[k] == s.data[k]))
            && (k in t.sensors - s.sensors <==> k in d.items && k !in s.data && k !in s.sensors)
  {
  }

  /** A poll that cannot read the bridge, or whose parse or diff raises, changes nothing. */
  lemma PollFailsAtomically(s: RemoteState, fetched: bool, raws: seq<RawSensor>)
    requires !fetched || Parsed(NonGeofence(raws)).Raises?
             || (var d := Parsed(NonGeofence(raws)).value;
                 ReportedKeys(s.data, d.items, d.keys).Raises?)
    ensures Poll(s, fetched, raws).state == s
    ensures fetched <==> Poll(s, fetched, raws).error.Some?
  {
  }

  /**
    * The events fired are, in parse order, one per reported key with the key's
    * newly stored state; a reported key is one that was stored, whose record
    * changed, and whose `last_updated` or `state` changed.
    */
  lemma PollFires(s: RemoteState, raws: seq<RawSensor>, n: nat)
    requires Parsed(NonGeofence(raws)).Ok?
    requires var t := Poll(s, true, raws).state; |s.fired| <= n < |t.fired|
    ensures var d := Parsed(NonGeofence(raws)).value;
            var t := Poll(s, true, raws).state;
            var e := t.fired[n];
            && e.hueId in d.items && Reported(Get(s.data, e.hueId), d.items[e.hueId]) == Ok(true)
            && State in d.items[e.hueId] && e.buttonEvent == d.items[e.hueId][State]
  {
    PollSchedules(s, raws);
  }

  /**
    * The refreshes scheduled are, in parse order, those of the reported keys:
    * the n-th one belongs to the n-th fired event, which carries the key's newly
    * stored state, and a poll that raises while firing has scheduled one refresh
    * more than it fired events, for the key whose stored record has no state.
    */
  lemma PollSchedules(s: RemoteState, raws: seq<RawSensor>)
    requires Parsed(NonGeofence(raws)).Ok?
    requires var d := Parsed(NonGeofence(raws)).value; ReportedKeys(s.data, d.items, d.keys).Ok?
    ensures var d := Parsed(NonGeofence(raws)).value;
            var o := Poll(s, true, raws);
            && |s.scheduled| <= |o.state.scheduled| && |s.fired| <= |o.state.fired|
            && var added := o.state.scheduled[|s.scheduled|..];
               var events := o.state.fired[|s.fired|..];
               && |added| == |events| + (if o.error.Some? then 1 else 0)
               && (forall i :: 0 <= i < |added| ==> added[i] in d.items && Reported(Get(s.data, added[i]), d.items[added[i]]) == Ok(true))
               && (forall i :: 0 <= i < |events| ==> State in o.state.data[added[i]] && events[i] == ButtonEvent(added[i], o.state.data[added[i]][State]))
               && (o.error.Some? ==> State !in o.state.data[added[|added| - 1]])
  {
    var d := Parsed(NonGeofence(raws)).value;
    PollOk(s, raws);
    ReportedListed(s.data, d.items, d.keys);
    FiredSchedules(s, Poll(s, true, raws), s.data, d.items, ReportedKeys(s.data, d.items, d.keys).value);
  }

  /** Every key the diff lists is a parsed key that is reported. */
  lemma ReportedListed(stored: map<string, Record>, incoming: map<string, Record>, keys: seq<string>)
    requires forall i :: 0 <= i < |keys| ==> keys[i] in incoming
    requires ReportedKeys(stored, incoming, keys).Ok?
    ensures var reported := ReportedKeys(stored, incoming, keys).value;
            forall i :: 0 <= i < |reported| ==> reported[i] in incoming && Reported(Get(stored, reported[i]), incoming[reported[i]]) == Ok(true)
  {
    ReportedKeysSpec(stored, incoming, keys);
  }

  /** `PollSchedules` for the outcome of the firing loop over the reported keys. */
  lemma FiredSchedules(s: RemoteState, o: Outcome, stored: map<string, Record>, incoming: map<string, Record>, reported: seq<string>)
    requires forall i :: 0 <= i < |reported| ==> reported[i] in incoming && Reported(Get(stored, reported[i]), incoming[reported[i]]) == Ok(true)
    requires var data := stored + incoming;
             var p := FirstWithoutState(data, reported);
             && o.state.data == data
             && o.state.scheduled == s.scheduled + ScheduledKeys(reported, p)
             && o.state.fired == s.fired + Events(data, reported[..p])
             && o.error == if p < |reported| then Some(KeyError) else None
    ensures && |s.scheduled| <= |o.state.scheduled| && |s.fired| <= |o.state.fired|
            && var added := o.state.scheduled[|s.scheduled|..];
               var events := o.state.fired[|s.fired|..];
               && |added| == |events| + (if o.error.Some? then 1 else 0)
               && (forall i :: 0 <= i < |added| ==> added[i] in incoming && Reported(Get(stored, added[i]), incoming[added[i]]) == Ok(true))
               && (forall i :: 0 <= i < |events| ==> State in o.state.data[added[i]] && events[i] == ButtonEvent(added[i], o.state.data[added[i]][State]))
               && (o.error.Some? ==> State !in o.state.data[added[|added| - 1]])
  {
    var data := stored + incoming;
    var p := FirstWithoutState(data, reported);
    var added := o.state.scheduled[|s.scheduled|..];
    var events := o.state.fired[|s.fired|..];
    assert added == ScheduledKeys(reported, p);
    assert events == Events(data, reported[..p]);
    ScheduledEvents(data, reported, p);
    forall i | 0 <= i < |added| ensures added[i] in incoming && Reported(Get(stored, added[i]), incoming[added[i]]) == Ok(true) {
      assert added[i] == reported[i];
    }
  }

  /** The keys scheduled and the events fired by the firing loop, side by side. */
  lemma ScheduledEvents(data: map<string, Record>, ids: seq<string>, p: nat)
    requires forall i :: 0 <= i < |ids| ==> ids[i] in data
    requires p == FirstWithoutState(data, ids)
    ensures var added := ScheduledKeys(ids, p);
            var events := Events(data, ids[..p]);
            && |added| == |events| + (if p < |ids| then 1 else 0)
            && (forall i :: 0 <= i < |events| ==> State in data[added[i]] && events[i] == ButtonEvent(added[i], data[added[i]][State]))
            && (forall i :: 0 <= i < |added| ==> added[i] in ids)
            && (p < |ids| ==> State !in data[added[|added| - 1]])
  {
    var added := ScheduledKeys(ids, p);
    var events := Events(data, ids[..p]);
    forall i | 0 <= i < |events| ensures State in data[added[i]] && events[i] == ButtonEvent(added[i], data[added[i]][State]) {
      EventAt(data, ids[..p], i);
    }
  }

  /** A poll whose parse and diff go through, spelled out. */
  lemma PollOk(s: RemoteState, raws: seq<RawSensor>)
    requires Parsed(NonGeofence(raws)).Ok?
    requires var d := Parsed(NonGeofence(raws)).value; ReportedKeys(s.data, d.items, d.keys).Ok?
    ensures var d := Parsed(NonGeofence(raws)).value;
            var reported := ReportedKeys(s.data, d.items, d.keys).value;
            var data := s.data + d.items;
            var p := FirstWithoutState(data, reported);
            && Poll(s, true, raws).state == RemoteState(data, s.sensors + (d.items.Keys - s.data.Keys), s.scheduled + ScheduledKeys(reported, p),
                                                     s.fired + Events(data, reported[..p]))
            && Poll(s, true, raws).error == if p < |reported| then Some(KeyError) else None
  {
  }

  lemma EventAt(data: map<string, Record>, ids: seq<string>, m: nat)
    requires forall i :: 0 <= i < |ids| ==> ids[i] in data && State in data[ids[i]]
    requires m < |ids|
    ensures Events(data, ids)[m] == ButtonEvent(ids[m], data[ids[m]][State])
  {
  }

  /** `HueRemoteData`: the stored records, the entities, and the events fired on the bus. */
  class HueRemoteData {
    /** `self.data` */
    var data: map<string, Record>
    /** The keys of `self.sensors`, one `HueRemote` per key. */
    var sensors: set<string>
    /** The keys whose `HueRemote` had `async_schedule_update_ha_state` called, in order. */
    var scheduled: seq<string>
    /** The button events fired so far. */
    var fired: seq<ButtonEvent>

    ghost predicate Valid()
      reads this
    {
      Consistent(RemoteState(data, sensors, scheduled, fired))
    }

    constructor ()
      ensures Valid() && data == map[] && sensors == {} && scheduled == [] && fired == []
    {
      data := map[];
      sensors := {};
      scheduled := [];
      fired := [];
    }

    /** `update_bridge`: `fetched` is what `update_api` returned. */
    method UpdateBridge(fetched: bool, raws: seq<RawSensor>) returns (err: Option<PyError>)
      requires Valid()
      modifies this
      ensures Valid()
      ensures Outcome(RemoteState(data, sensors, scheduled, fired), err) == Poll(old(RemoteState(data, sensors, scheduled, fired)), fetched, raws)
    {
      PollConsistent(RemoteState(data, sensors, scheduled, fired), fetched, raws);
      if !fetched {
        return None;
      }
      var parsed := ParseHueApiResponse(NonGeofence(raws));
      if parsed.Raises? {
        return Some(parsed.error);
      }
      var d := parsed.value;
      var newSensors := d.items.Keys - data.Keys;
      var updated := UpdatedSensors(data, d);
      if updated.Raises? {
        return Some(updated.error);
      }
      data := data + d.items;
      sensors := sensors + newSensors;
      err := FireEvents(updated.value);
    }

    /**
      * `for entity_id in updated_sensors:` schedule the entity's refresh, then
      * fire its event with `self.data[entity_id]["state"]`, stopping at a KeyError.
      */
    method FireEvents(updated: seq<string>) returns (err: Option<PyError>)
      requires forall i :: 0 <= i < |updated| ==> updated[i] in data
      modifies this`scheduled, this`fired
      ensures var p := FirstWithoutState(data, updated);
              && scheduled == old(scheduled) + ScheduledKeys(updated, p)
              && fired == old(fired) + Events(data, updated[..p])
              && err == if p < |updated| then Some(KeyError) else None
    {
      var p := FirstWithoutState(data, updated);
      var j := 0;
      while j < |updated|
        invariant j <= p
        invariant scheduled == old(scheduled) + updated[..j]
        invariant fired == old(fired) + Events(data, updated[..j])
      {
        var entityId := updated[j];
        assert updated[..j + 1] == updated[..j] + [entityId];
        scheduled := scheduled + [entityId];
        if State !in data[entityId] {
          return Some(KeyError);
        }
        assert Events(data, updated[..j + 1]) == Events(data, updated[..j]) + [ButtonEvent(entityId, data[entityId][State])];
        fired := fired + [ButtonEvent(entityId, data[entityId][State])];
        j := j + 1;
      }
      assert updated[..j] == updated;
      return None;
    }
  }

  /** The loop that builds `updated_sensors`. */
  method UpdatedSensors(stored: map<string, Record>, d: Dict) returns (r: Result<seq<string>>)
    requires d.Listed()
    ensures r == ReportedKeys(stored, d.items, d.keys)
  {
    var keys := d.keys;
    var updated := [];
    var i := 0;
    while i < |keys|
      invariant i <= |keys|
      invariant ReportedKeys(stored, d.items, keys[..i]) == Ok(updated)
    {
      var key := keys[i];
      assert keys[..i + 1][..i] == keys[..i];
      var reported := IsReported(Get(stored, key), d.items[key]);
      if reported.Raises? {
        ReportedKeysPrefixRaises(stored, d.items, keys, i + 1);
        return Raises(reported.error);
      }
      if reported.value {
        updated := updated + [key];
      }
      i := i + 1;
    }
    assert keys[..i] == keys;
    return Ok(updated);
  }

  /** The body of that loop for one key: `continue` where the key is not reported. */
  method IsReported(oldRecord: Option<Record>, newRecord: Record) returns (r: Result<bool>)
    ensures r == Reported(oldRecord, newRecord)
  {
    if Falsy(oldRecord) || oldRecord.value == newRecord {
      return Ok(false);
    }
    var oldUpdated :- Index(oldRecord.value, LastUpdated);
    var newUpdated :- Index(newRecord, LastUpdated);
    if oldUpdated == newUpdated {
      var oldState :- Index(oldRecord.value, State);
      var newState :- Index(newRecord, State);
      if oldState == newState {
        return Ok(false);
      }
    }
    return Ok(true);
  }
}
