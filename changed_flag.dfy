/**
  * The poll-to-poll diff with a `changed` flag, which `HueSensorData.update_bridge`
  * does identically in `custom_components/huesensor/sensor.py` and
  * `custom_components/huesensor/binary_sensor.py`: every parsed record is
  * flagged `changed = True`; a record that was stored before and differs is
  * queued for a state refresh, and its flag is cleared again when its
  * `last_updated` and `state` are both unchanged; then every parsed record is
  * stored.
  */
module ChangedFlag {
  import opened PyBase

  /** What one iteration decides for a key: whether it is queued, and the record it leaves in the parse. */
  datatype Verdict = Verdict(queued: bool, record: Record)

  /** `new["changed"] = True`, then the comparison with `old = self.data.get(key)`. */
  function Flag(before: Option<Record>, after: Record): Result<Verdict> {
    var flagged := after[Changed := VBool(true)];
    if Falsy(before) || before.value == flagged then Ok(Verdict(false, flagged))
    else
      var beforeUpdated :- Index(before.value, LastUpdated);
      var afterUpdated :- Index(flagged, LastUpdated);
      if beforeUpdated != afterUpdated then Ok(Verdict(true, flagged))
      else
        var beforeState :- Index(before.value, State);
        var afterState :- Index(flagged, State);
        Ok(Verdict(true, if beforeState == afterState then flagged[Changed := VBool(false)] else flagged))
  }

  /**
    * A key is queued iff it was stored, non-empty, and differs from the flagged
    * parse; the stored record is the parse with `changed` set, and the flag is
    * False exactly when the key is queued with `last_updated` and `state` both
    * unchanged. The comparison raises iff it reads a field one side lacks.
    */
  lemma FlagSpec(before: Option<Record>, after: Record)
    ensures var flagged := after[Changed := VBool(true)];
            Flag(before, after).Raises? <==>
              && !Falsy(before) && before.value != flagged
              && (LastUpdated !in before.value || LastUpdated !in after
                  || (before.value[LastUpdated] == after[LastUpdated] && (State !in before.value || State !in after)))
    ensures Flag(before, after).Ok? ==>
              (Flag(before, after).value.queued <==> !Falsy(before) && before.value != after[Changed := VBool(true)])
    ensures Flag(before, after).Ok? ==>
              var v := Flag(before, after).value;
              var cleared := v.queued && before.value[LastUpdated] == after[LastUpdated]
                             && before.value[State] == after[State];
              v.record == after[Changed := VBool(!cleared)]
  {
  }

  /**
    * The verdict's record is the parse with a boolean flag, and the flag is
    * cleared iff the key is queued with `last_updated` and `state` both equal.
    */
  lemma FlagClears(before: Option<Record>, after: Record)
    requires Flag(before, after).Ok?
    ensures var v := Flag(before, after).value;
            && Changed in v.record && v.record[Changed].VBool?
            && v.record == after[Changed := VBool(v.record[Changed].b)]
            && (v.record[Changed] == VBool(false) <==>
                  v.queued && Get(before.value, LastUpdated) == Get(after, LastUpdated) && Get(before.value, State) == Get(after, State))
  {
    FlagSpec(before, after);
  }

  /**
    * A record stored with its flag cleared that comes back unchanged is queued
    * again, and keeps its cleared flag: it is refreshed on every later poll.
    */
  lemma ClearedFlagRequeued(after: Record)
    requires LastUpdated in after && State in after
    ensures Flag(Some(after[Changed := VBool(false)]), after) == Ok(Verdict(true, after[Changed := VBool(false)]))
  {
    var before := after[Changed := VBool(false)];
    var flagged := after[Changed := VBool(true)];
    assert before[Changed] != flagged[Changed];
    assert before[LastUpdated] == flagged[LastUpdated] && before[State] == flagged[State];
    assert flagged[Changed := VBool(false)] == before;
  }

  /** A record stored with its flag set that comes back unchanged is not queued, and is stored as it was. */
  lemma FlaggedUnchangedQuiet(after: Record)
    ensures Flag(Some(after[Changed := VBool(true)]), after) == Ok(Verdict(false, after[Changed := VBool(true)]))
  {
  }

  /** The outcome of the loop: `updated_sensors` and the flagged records of the parse. */
  datatype Diff = Diff(queued: seq<string>, records: map<string, Record>)

  /** The loop over `data.items()` in parse order, or the first KeyError. */
  function FlagAll(stored: map<string, Record>, incoming: map<string, Record>, keys: seq<string>): (r: Result<Diff>)
    requires forall i :: 0 <= i < |keys| ==> keys[i] in incoming
    decreases |keys|
  {
    if keys == [] then Ok(Diff([], map[]))
    else
      var prev :- FlagAll(stored, incoming, keys[..|keys| - 1]);
      var k := keys[|keys| - 1];
      var v :- Flag(Get(stored, k), incoming[k]);
      Ok(Diff(if v.queued then prev.queued + [k] else prev.queued, prev.records[k := v.record]))
  }

  /**
    * The loop raises iff one comparison raises; otherwise it flags the record of
    * every listed key as `Flag` decides, and queues exactly the keys `Flag` queues.
    */
  lemma {:induction false} FlagAllSpec(stored: map<string, Record>, incoming: map<string, Record>, keys: seq<string>)
    requires forall i :: 0 <= i < |keys| ==> keys[i] in incoming
    ensures FlagAll(stored, incoming, keys).Ok? <==>
              forall i :: 0 <= i < |keys| ==> Flag(Get(stored, keys[i]), incoming[keys[i]]).Ok?
    ensures FlagAll(stored, incoming, keys).Ok? ==>
              var diff := FlagAll(stored, incoming, keys).value;
              forall k :: (k in diff.records <==> k in keys) && (k in diff.queued ==> k in diff.records)
                          && (k in diff.records ==> Ok(Verdict(k in diff.queued, diff.records[k])) == Flag(Get(stored, k), incoming[k]))
    decreases |keys|
  {
    if keys != [] {
      var init := keys[..|keys| - 1];
      var k := keys[|keys| - 1];
      FlagAllSpec(stored, incoming, init);
      assert keys == init + [k];
      if FlagAll(stored, incoming, init).Ok? && Flag(Get(stored, k), incoming[k]).Ok? {
        var prev := FlagAll(stored, incoming, init).value;
        var v := Flag(Get(stored, k), incoming[k]).value;
        var diff := FlagAll(stored, incoming, keys).value;
        forall j | j in diff.records
          ensures Ok(Verdict(j in diff.queued, diff.records[j])) == Flag(Get(stored, j), incoming[j])
        {
          if j != k {
            assert j in prev.records;
            assert j in diff.queued <==> j in prev.queued;
          }
        }
      }
      if FlagAll(stored, incoming, init).Ok? && !Flag(Get(stored, k), incoming[k]).Ok? {
        assert !Flag(Get(stored, keys[|keys| - 1]), incoming[keys[|keys| - 1]]).Ok?;
      }
      if !FlagAll(stored, incoming, init).Ok? {
        var i :| 0 <= i < |init| && !Flag(Get(stored, init[i]), incoming[init[i]]).Ok?;
        assert keys[i] == init[i];
      }
    }
  }

  /** One more key extends the loop's diff by that key's verdict. */
  lemma FlagAllNext(stored: map<string, Record>, incoming: map<string, Record>, keys: seq<string>, i: nat, prev: Diff, v: Verdict)
    requires forall j :: 0 <= j < |keys| ==> keys[j] in incoming
    requires i < |keys| && FlagAll(stored, incoming, keys[..i]) == Ok(prev)
    requires Flag(Get(stored, keys[i]), incoming[keys[i]]) == Ok(v)
    ensures FlagAll(stored, incoming, keys[..i + 1]) ==
              Ok(Diff(if v.queued then prev.queued + [keys[i]] else prev.queued, prev.records[keys[i] := v.record]))
  {
    assert keys[..i + 1][..i] == keys[..i];
  }

  /** Once a prefix of the keys raises, the whole loop raises with that error. */
  lemma {:induction false} FlagAllPrefixRaises(stored: map<string, Record>, incoming: map<string, Record>, keys: seq<string>, n: nat)
    requires forall i :: 0 <= i < |keys| ==> keys[i] in incoming
    requires n <= |keys| && FlagAll(stored, incoming, keys[..n]).Raises?
    ensures FlagAll(stored, incoming, keys) == FlagAll(stored, incoming, keys[..n])
    decreases |keys|
  {
    if n < |keys| {
      var init := keys[..|keys| - 1];
      assert init[..n] == keys[..n];
      FlagAllPrefixRaises(stored, incoming, init, n);
    } else {
      assert keys[..n] == keys;
    }
  }

  /** The platform's state between polls: `self.data`, the keys of `self.sensors`, and the refreshes scheduled so far. */
  datatype SensorState = SensorState(data: map<string, Record>, sensors: set<string>, scheduled: seq<string>)

  datatype Outcome = Outcome(state: SensorState, error: Option<PyError>)

  /**
    * The part of `update_bridge` after the parse: a raising comparison changes
    * nothing; otherwise the flagged records are stored, the new keys get an
    * entity, and each queued key's entity is scheduled for a refresh.
    */
  function Refreshed(s: SensorState, d: Dict): (o: Outcome)
    requires d.Listed()
    ensures o.error.Some? ==> o.state == s
    ensures s.data.Keys <= o.state.data.Keys && s.sensors <= o.state.sensors && s.scheduled <= o.state.scheduled
  {
    match FlagAll(s.data, d.items, d.keys)
    case Raises(e) => Outcome(s, Some(e))
    case Ok(diff) =>
      Outcome(SensorState(s.data + diff.records, s.sensors + (d.items.Keys - s.data.Keys), s.scheduled + diff.queued), None)
  }

  /** An entity exists for exactly the stored keys. */
  predicate Consistent(s: SensorState) {
    s.sensors == s.data.Keys
  }

  /**
    * A refresh keeps one entity per stored key, and schedules only keys that
    * were stored before, so `self.sensors[entity_id]` never raises.
    */
  lemma RefreshedConsistent(s: SensorState, d: Dict)
    requires d.Listed() && d.Valid() && Consistent(s)
    ensures Consistent(Refreshed(s, d).state)
    ensures forall i :: |s.scheduled| <= i < |Refreshed(s, d).state.scheduled| ==> Refreshed(s, d).state.scheduled[i] in s.sensors
  {
    FlagAllSpec(s.data, d.items, d.keys);
    var r := Refreshed(s, d);
    if r.error.None? {
      var diff := FlagAll(s.data, d.items, d.keys).value;
      forall k | k in d.items ensures k in diff.records {
        ValidListed(d, k);
      }
      forall i | |s.scheduled| <= i < |r.state.scheduled| ensures r.state.scheduled[i] in s.sensors {
        var k := diff.queued[i - |s.scheduled|];
        assert k in diff.queued;
        ValidKeysListed(d, k);
        FlagSpec(Get(s.data, k), d.items[k]);
      }
    }
  }

  /**
    * A refresh that goes through stores every parsed record flagged as `Flag`
    * decides, whether queued or not, and keeps the stored keys this poll did
    * not see; it queues a key iff `Flag` does.
    */
  lemma RefreshedStores(s: SensorState, d: Dict, k: string)
    requires d.Listed() && d.Valid() && Refreshed(s, d).error.None?
    ensures var t := Refreshed(s, d).state;
            && (k in d.items ==> k in t.data && Flag(Get(s.data, k), d.items[k]) == Ok(Verdict(k in t.scheduled[|s.scheduled|..], t.data[k])))
            && (k !in d.items ==> (k in t.data <==> k in s.data) && (k in s.data ==> t.data[k] == s.data[k]))
  {
    FlagAllSpec(s.data, d.items, d.keys);
    ValidListed(d, k);
    var t := Refreshed(s, d).state;
    assert t.scheduled[|s.scheduled|..] == FlagAll(s.data, d.items, d.keys).value.queued;
  }

  /** `HueSensorData` of the sensor and binary sensor platforms. */
  class FlaggedSensorData {
    /** `self.data` */
    var data: map<string, Record>
    /** The keys of `self.sensors`, one `HueSensor` per key. */
    var sensors: set<string>
    /** The keys whose entity was scheduled for a state refresh, in order. */
    var scheduled: seq<string>

    ghost predicate Valid()
      reads this
    {
      Consistent(SensorState(data, sensors, scheduled))
    }

    constructor ()
      ensures Valid() && data == map[] && sensors == {} && scheduled == []
    {
      data := map[];
      sensors := {};
      scheduled := [];
    }

    /** `update_bridge` from the line after the parse, given the parsed dict. */
    method Refresh(d: Dict) returns (err: Option<PyError>)
      requires Valid() && d.Listed() && d.Valid()
      modifies this
      ensures Valid()
      ensures Outcome(SensorState(data, sensors, scheduled), err) == Refreshed(old(SensorState(data, sensors, scheduled)), d)
    {
      ghost var s := SensorState(data, sensors, scheduled);
      var newSensors := d.items.Keys - data.Keys;
      var keys := d.keys;
      var records := map[];
      var updated := [];
      var i := 0;
      while i < |keys|
        invariant i <= |keys| && unchanged(this)
        invariant FlagAll(data, d.items, keys[..i]) == Ok(Diff(updated, records))
      {
        var key := keys[i];
        assert keys[..i + 1][..i] == keys[..i];
        var verdict := FlagOne(Get(data, key), d.items[key]);
        if verdict.Raises? {
          FlagAllPrefixRaises(data, d.items, keys, i + 1);
          return Some(verdict.error);
        }
        FlagAllNext(data, d.items, keys, i, Diff(updated, records), verdict.value);
        if verdict.value.queued {
          updated := updated + [key];
        }
        records := records[key := verdict.value.record];
        i := i + 1;
      }
      assert keys[..i] == keys;
      RefreshedConsistent(s, d);
      assert Refreshed(s, d) == Outcome(SensorState(data + records, sensors + newSensors, scheduled + updated), None);
      data := data + records;
      sensors := sensors + newSensors;
      scheduled := scheduled + updated;
      return None;
    }
  }

  /** The body of the loop for one key. */
  method FlagOne(oldRecord: Option<Record>, newRecord: Record) returns (r: Result<Verdict>)
    ensures r == Flag(oldRecord, newRecord)
  {
    var flagged := newRecord[Changed := VBool(true)];
    if Falsy(oldRecord) || oldRecord.value == flagged {
      return Ok(Verdict(false, flagged));
    }
    var oldUpdated :- Index(oldRecord.value, LastUpdated);
    var newUpdated :- Index(flagged, LastUpdated);
    if oldUpdated == newUpdated {
      var oldState :- Index(oldRecord.value, State);
      var newState :- Index(flagged, State);
      if oldState == newState {
        flagged := flagged[Changed := VBool(false)];
      }
    }
    return Ok(Verdict(true, flagged));
  }

  lemma ValidKeysListed(d: Dict, k: string)
    requires d.Listed()
    ensures k in d.keys ==> k in d.items
  {
  }
}
