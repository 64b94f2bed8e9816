/**
  * `custom_components/huesensor/data_manager.py`: the data manager shared by
  * the platforms of the newest revision. Each poll parses the records of the
  * registered models, classifies every device against the stored record
  * (new, reported as updated, or stored silently), merges the parse into the
  * store in place, and dispatches: an unregistered device is registered and
  * queued for its platform, a registered one that was added to the host has
  * its state written. A small state machine starts and stops the polling.
  */
module DataManager {
  import opened PyBase
  import opened BridgeRecord
  import opened ButtonTables
  import opened Aggregation
  import HueApiResponse

  // ---------------------------------------------------------------------------
  // The records of one poll

  /** `(sensor.raw for sensor in ... if sensor.raw["modelid"].startswith(models_filter))`, in bridge order. */
  function Matching(raws: seq<RawSensor>, models: set<string>): (rs: seq<RawSensor>)
    ensures forall i :: 0 <= i < |rs| ==> StartsWithAny(rs[i].modelid, models)
    ensures |rs| <= |raws|
    decreases |raws|
  {
    if raws == [] then []
    else
      var rest := Matching(raws[..|raws| - 1], models);
      var r := raws[|raws| - 1];
      if StartsWithAny(r.modelid, models) then rest + [r] else rest
  }

  /** The filter keeps exactly the records whose model id starts with a registered model. */
  lemma {:induction false} MatchingKeeps(raws: seq<RawSensor>, models: set<string>, r: RawSensor)
    ensures r in Matching(raws, models) <==> r in raws && StartsWithAny(r.modelid, models)
    decreases |raws|
  {
    if raws != [] {
      MatchingKeeps(raws[..|raws| - 1], models, r);
      assert raws == raws[..|raws| - 1] + [raws[|raws| - 1]];
    }
  }

  /** What `parse_hue_api_response` of the newest revision returns for the matching records. */
  function Parsed(c: ButtonCodes, raws: seq<RawSensor>, models: set<string>): (d: Dict)
    requires c.Valid()
    ensures d.Listed() && d.Valid()
  {
    CollectListed(HueApiResponse.Facets(c, Matching(raws, models)));
    CollectValid(HueApiResponse.Facets(c, Matching(raws, models)));
    Collect(HueApiResponse.Facets(c, Matching(raws, models)))
  }

  // ---------------------------------------------------------------------------
  // Classifying one device

  /** What `_iter_data` yields for a device, with the record it leaves in `self.data[dev_id]`. */
  datatype Sighting = Sighting(updated: bool, model: Value, stored: Record)

  const SML: Value := VStr("SML")

  /** `dev_data` once a motion sensor's has been flagged `changed = True`. */
  function Flagged(dev: Record): Record
    requires Model in dev
  {
    if dev[Model] == SML then dev[Changed := VBool(true)] else dev
  }

  /**
    * One iteration of `_iter_data` for a device: a device not stored (or stored
    * empty) is stored and reported; one whose record is unchanged is not
    * reported and the store is untouched; otherwise the parse is merged into
    * the stored record, and it is reported unless `last_updated` and `state`
    * are both unchanged, in which case a motion sensor's flag is cleared.
    */
  function Classify(before: Option<Record>, dev: Record): (r: Result<Sighting>)
    ensures r.Raises? ==> r.error == KeyError
    ensures r.Ok? ==> Model in dev && r.value.model == dev[Model] && dev.Keys <= r.value.stored.Keys
    ensures r.Ok? && before.Some? ==> before.value.Keys <= r.value.stored.Keys
    ensures r.Ok? && Falsy(before) ==> r.value.updated
  {
    var model :- Index(dev, Model);
    var flagged := Flagged(dev);
    if Falsy(before) then Ok(Sighting(true, model, flagged))
    else if before.value == flagged then Ok(Sighting(false, model, before.value))
    else
      var beforeUpdated :- Index(before.value, LastUpdated);
      var devUpdated :- Index(flagged, LastUpdated);
      if beforeUpdated != devUpdated then Ok(Sighting(true, model, before.value + flagged))
      else
        var beforeState :- Index(before.value, State);
        var devState :- Index(flagged, State);
        if beforeState != devState then Ok(Sighting(true, model, before.value + flagged))
        else
          var cleared := if model == SML then flagged[Changed := VBool(false)] else flagged;
          Ok(Sighting(false, model, before.value + cleared))
  }

  /**
    * The classification raises iff the parse has no `model`, or the record
    * differs from a stored one and `last_updated`, or then `state`, is missing
    * on either side.
    */
  lemma ClassifyRaises(before: Option<Record>, dev: Record)
    ensures Classify(before, dev).Raises? <==>
              || Model !in dev
              || (&& !Falsy(before) && before.value != Flagged(dev)
                  && (|| LastUpdated !in before.value || LastUpdated !in dev
                      || (before.value[LastUpdated] == dev[LastUpdated] && (State !in before.value || State !in dev))))
  {
  }

  /** The first sighting of a device (or an empty stored record) stores the parse and reports it. */
  lemma ClassifyFirstSighting(before: Option<Record>, dev: Record)
    requires Falsy(before) && Model in dev
    ensures Classify(before, dev) == Ok(Sighting(true, dev[Model], Flagged(dev)))
  {
  }

  /** A parse equal to the stored record is not reported and leaves the store as it was. */
  lemma ClassifyEqual(before: Record, dev: Record)
    requires before != map[] && Model in dev && before == Flagged(dev)
    ensures Classify(Some(before), dev) == Ok(Sighting(false, dev[Model], before))
  {
  }

  /**
    * A differing parse is merged into the stored record: every field it
    * carries takes its value and every other stored field survives. It is
    * reported iff `last_updated` or `state` changed; a motion sensor carries
    * `changed` equal to whether it is reported.
    */
  lemma ClassifyMerges(before: Record, dev: Record, f: Field)
    requires before != map[] && Model in dev && before != Flagged(dev)
    requires Classify(Some(before), dev).Ok?
    ensures var s := Classify(Some(before), dev).value;
            && (s.updated <==> before[LastUpdated] != dev[LastUpdated] || before[State] != dev[State])
            && (f in dev && f != Changed ==> f in s.stored && s.stored[f] == dev[f])
            && (f !in dev && f != Changed ==> (f in s.stored <==> f in before) && (f in before ==> s.stored[f] == before[f]))
            && (dev[Model] == SML ==> Changed in s.stored && s.stored[Changed] == VBool(s.updated))
            && (dev[Model] != SML ==> (Changed in s.stored <==> Changed in before || Changed in dev))
  {
  }

  // ---------------------------------------------------------------------------
  // Dispatching one device

  /** `(entity_cls, async_add_entities)` registered for a model. */
  datatype Platform = Platform(entityCls: string, addFn: nat)

  /** An entry `async_add_entities: [entity_cls, entities]` of `new_entities_to_add`. */
  datatype Batch = Batch(addFn: nat, entityCls: string, ids: seq<string>)

  /** The queueing part of `_register_new_entity`: the entity joins its add function's batch, opened if absent. */
  function Enqueue(pending: seq<Batch>, addFn: nat, entityCls: string, id: string): (r: seq<Batch>)
    decreases |pending|
  {
    if pending == [] then [Batch(addFn, entityCls, [id])]
    else if pending[0].addFn == addFn then [pending[0].(ids := pending[0].ids + [id])] + pending[1..]
    else [pending[0]] + Enqueue(pending[1..], addFn, entityCls, id)
  }

  predicate Queued(pending: seq<Batch>, k: string) {
    exists i :: 0 <= i < |pending| && k in pending[i].ids
  }

  predicate HasBatch(pending: seq<Batch>, addFn: nat) {
    exists i :: 0 <= i < |pending| && pending[i].addFn == addFn
  }

  /** Queueing adds exactly the entity to the entities already queued. */
  lemma {:induction false} EnqueueQueued(pending: seq<Batch>, addFn: nat, entityCls: string, id: string, k: string)
    ensures Queued(Enqueue(pending, addFn, entityCls, id), k) <==> Queued(pending, k) || k == id
    decreases |pending|
  {
    var r := Enqueue(pending, addFn, entityCls, id);
    if pending == [] {
      assert k == id ==> k in r[0].ids;
    } else if pending[0].addFn == addFn {
      if Queued(pending, k) {
        var i :| 0 <= i < |pending| && k in pending[i].ids;
        assert k in r[i].ids;
      }
      if k == id {
        assert k in r[0].ids;
      }
      if Queued(r, k) {
        var i :| 0 <= i < |r| && k in r[i].ids;
        if i > 0 { assert k in pending[i].ids; } else if k != id { assert k in pending[0].ids; }
      }
    } else {
      var rest := pending[1..];
      var tail := Enqueue(rest, addFn, entityCls, id);
      EnqueueQueued(rest, addFn, entityCls, id, k);
      assert r == [pending[0]] + tail;
      if Queued(pending, k) {
        var i :| 0 <= i < |pending| && k in pending[i].ids;
        if i > 0 { assert k in rest[i - 1].ids; } else { assert k in r[0].ids; }
      }
      if Queued(tail, k) {
        var i :| 0 <= i < |tail| && k in tail[i].ids;
        assert k in r[i + 1].ids;
      }
      if Queued(r, k) {
        var i :| 0 <= i < |r| && k in r[i].ids;
        if i > 0 { assert k in tail[i - 1].ids; } else { assert k in pending[0].ids; }
      }
      if Queued(rest, k) {
        var i :| 0 <= i < |rest| && k in rest[i].ids;
        assert k in pending[i + 1].ids;
      }
    }
  }

  /** The batch at `i` belongs to `addFn` and holds `id`. */
  predicate InBatch(pending: seq<Batch>, i: int, addFn: nat, id: string) {
    0 <= i < |pending| && pending[i].addFn == addFn && id in pending[i].ids
  }

  /** The entity lands in the batch of its add function. */
  lemma {:induction false} EnqueueInBatch(pending: seq<Batch>, addFn: nat, entityCls: string, id: string)
    ensures exists i :: InBatch(Enqueue(pending, addFn, entityCls, id), i, addFn, id)
    decreases |pending|
  {
    var r := Enqueue(pending, addFn, entityCls, id);
    if pending == [] || pending[0].addFn == addFn {
      assert InBatch(r, 0, addFn, id);
    } else {
      var tail := Enqueue(pending[1..], addFn, entityCls, id);
      EnqueueInBatch(pending[1..], addFn, entityCls, id);
      assert r == [pending[0]] + tail;
      var j :| InBatch(tail, j, addFn, id);
      assert InBatch(r, j + 1, addFn, id);
    }
  }

  /** A batch is opened only for an add function that has none. */
  lemma {:induction false} EnqueueLength(pending: seq<Batch>, addFn: nat, entityCls: string, id: string)
    ensures |Enqueue(pending, addFn, entityCls, id)| == if HasBatch(pending, addFn) then |pending| else |pending| + 1
    decreases |pending|
  {
    if pending != [] && pending[0].addFn == addFn {
      assert HasBatch(pending, addFn);
    } else if pending != [] {
      var rest := pending[1..];
      EnqueueLength(rest, addFn, entityCls, id);
      if HasBatch(pending, addFn) {
        var i :| 0 <= i < |pending| && pending[i].addFn == addFn;
        assert rest[i - 1] == pending[i];
      }
      if HasBatch(rest, addFn) {
        var i :| 0 <= i < |rest| && rest[i].addFn == addFn;
        assert pending[i + 1] == rest[i];
      }
    }
  }

  /** What the dispatch loop tracks: `self.data`, `self.registered_entities`, `new_entities_to_add`, and the state writes. */
  datatype Tracking = Tracking(data: map<string, Record>, registered: set<string>, pending: seq<Batch>, written: seq<string>)

  /** The tracked state after some devices, and the exception that stopped the loop, if any. */
  datatype Progress = Progress(t: Tracking, error: Option<PyError>)

  /**
    * One device of the loop: `_iter_data` classifies and stores it, then the
    * consumer registers a reported, unregistered device (KeyError when its
    * model has no platform). On a poll (`onPoll`), a reported registered
    * device that was added to the host has its state written; the platform
    * setup does only the registration.
    */
  function Step(t: Tracking, platforms: map<string, Platform>, sensors: set<string>, onPoll: bool, id: string, dev: Record): Progress {
    match Classify(Get(t.data, id), dev)
    case Raises(e) => Progress(t, Some(e))
    case Ok(s) =>
      var stored := t.(data := t.data[id := s.stored]);
      if s.updated && id !in t.registered then
        if s.model.VStr? && s.model.s in platforms then
          var p := platforms[s.model.s];
          Progress(stored.(registered := t.registered + {id}, pending := Enqueue(t.pending, p.addFn, p.entityCls, id)), None)
        else Progress(stored, Some(KeyError))
      else if onPoll && s.updated && id in sensors then Progress(stored.(written := t.written + [id]), None)
      else Progress(stored, None)
  }

  /**
    * One device only raises KeyError, never unregisters a device or takes back
    * a state write, and, unless it raises, leaves the device stored.
    */
  lemma StepOutcome(t: Tracking, platforms: map<string, Platform>, sensors: set<string>, onPoll: bool, id: string, dev: Record)
    ensures var p := Step(t, platforms, sensors, onPoll, id, dev);
            && (p.error.Some? ==> p.error == Some(KeyError))
            && t.registered <= p.t.registered && t.written <= p.t.written
            && (p.error.None? ==> p.t.data.Keys == t.data.Keys + {id})
  {
  }

  /** The loop over the parsed devices in parse order, stopping at the first exception with what was done so far. */
  function Dispatch(t: Tracking, platforms: map<string, Platform>, sensors: set<string>, onPoll: bool,
                    items: map<string, Record>, keys: seq<string>): Progress
    requires forall i :: 0 <= i < |keys| ==> keys[i] in items
    decreases |keys|
  {
    if keys == [] then Progress(t, None)
    else
      var p := Dispatch(t, platforms, sensors, onPoll, items, keys[..|keys| - 1]);
      if p.error.Some? then p
      else Step(p.t, platforms, sensors, onPoll, keys[|keys| - 1], items[keys[|keys| - 1]])
  }

  /** Once a prefix of the devices raises, the loop ends there. */
  lemma {:induction false} DispatchPrefixRaises(t: Tracking, platforms: map<string, Platform>, sensors: set<string>, onPoll: bool,
                                                items: map<string, Record>, keys: seq<string>, n: nat)
    requires forall i :: 0 <= i < |keys| ==> keys[i] in items
    requires n <= |keys| && Dispatch(t, platforms, sensors, onPoll, items, keys[..n]).error.Some?
    ensures Dispatch(t, platforms, sensors, onPoll, items, keys) == Dispatch(t, platforms, sensors, onPoll, items, keys[..n])
    decreases |keys|
  {
    if n < |keys| {
      var init := keys[..|keys| - 1];
      assert init[..n] == keys[..n];
      DispatchPrefixRaises(t, platforms, sensors, onPoll, items, init, n);
    } else {
      assert keys[..n] == keys;
    }
  }

  /** One device leaves the record and the registration of every other key as they were. */
  lemma StepFrame(t: Tracking, platforms: map<string, Platform>, sensors: set<string>, onPoll: bool, id: string, dev: Record, k: string)
    requires k != id
    ensures var u := Step(t, platforms, sensors, onPoll, id, dev).t;
            && (k in u.data <==> k in t.data) && (k in t.data ==> u.data[k] == t.data[k])
            && (k in u.registered <==> k in t.registered)
  {
  }

  /**
    * A parsed device without a `model` (an Aurora switch whose dial record
    * is not in the same parse, say) stops the loop with a KeyError.
    */
  lemma {:induction false} DispatchModelless(t: Tracking, platforms: map<string, Platform>, sensors: set<string>, onPoll: bool,
                                             items: map<string, Record>, keys: seq<string>, j: nat)
    requires forall i :: 0 <= i < |keys| ==> keys[i] in items
    requires j < |keys| && Model !in items[keys[j]]
    ensures Dispatch(t, platforms, sensors, onPoll, items, keys).error.Some?
    decreases |keys|
  {
    if j < |keys| - 1 {
      DispatchModelless(t, platforms, sensors, onPoll, items, keys[..|keys| - 1], j);
    }
  }

  /** A key the loop does not visit keeps its stored record. */
  lemma {:induction false} DispatchDataFrame(t: Tracking, platforms: map<string, Platform>, sensors: set<string>, onPoll: bool,
                                             items: map<string, Record>, keys: seq<string>, k: string)
    requires forall i :: 0 <= i < |keys| ==> keys[i] in items
    requires k !in keys
    ensures var u := Dispatch(t, platforms, sensors, onPoll, items, keys).t;
            && (k in u.data <==> k in t.data) && (k in t.data ==> u.data[k] == t.data[k])
    decreases |keys|
  {
    if keys != [] {
      assert keys == keys[..|keys| - 1] + [keys[|keys| - 1]];
      DispatchDataFrame(t, platforms, sensors, onPoll, items, keys[..|keys| - 1], k);
      var p := Dispatch(t, platforms, sensors, onPoll, items, keys[..|keys| - 1]);
      if p.error.None? {
        StepFrame(p.t, platforms, sensors, onPoll, keys[|keys| - 1], items[keys[|keys| - 1]], k);
      }
    }
  }

  /** The loop only adds registrations, and only for keys it visits. */
  lemma {:induction false} DispatchRegistered(t: Tracking, platforms: map<string, Platform>, sensors: set<string>, onPoll: bool,
                                              items: map<string, Record>, keys: seq<string>, k: string)
    requires forall i :: 0 <= i < |keys| ==> keys[i] in items
    ensures var u := Dispatch(t, platforms, sensors, onPoll, items, keys).t;
            && t.registered <= u.registered
            && (k !in keys ==> (k in u.registered <==> k in t.registered))
    decreases |keys|
  {
    if keys != [] {
      assert keys == keys[..|keys| - 1] + [keys[|keys| - 1]];
      DispatchRegistered(t, platforms, sensors, onPoll, items, keys[..|keys| - 1], k);
    }
  }

  /** The loop queues exactly the entities it registers. */
  lemma {:induction false} DispatchQueued(t: Tracking, platforms: map<string, Platform>, sensors: set<string>, onPoll: bool,
                                          items: map<string, Record>, keys: seq<string>, k: string)
    requires forall i :: 0 <= i < |keys| ==> keys[i] in items
    ensures var u := Dispatch(t, platforms, sensors, onPoll, items, keys).t;
            Queued(u.pending, k) <==> Queued(t.pending, k) || k in u.registered - t.registered
    decreases |keys|
  {
    if keys != [] {
      var init := keys[..|keys| - 1];
      var last := keys[|keys| - 1];
      DispatchQueued(t, platforms, sensors, onPoll, items, init, k);
      DispatchRegistered(t, platforms, sensors, onPoll, items, init, k);
      var p := Dispatch(t, platforms, sensors, onPoll, items, init);
      if p.error.None? && Classify(Get(p.t.data, last), items[last]).Ok? {
        var s := Classify(Get(p.t.data, last), items[last]).value;
        if s.updated && last !in p.t.registered && s.model.VStr? && s.model.s in platforms {
          var pl := platforms[s.model.s];
          EnqueueQueued(p.t.pending, pl.addFn, pl.entityCls, last, k);
        }
      }
    }
  }

  /** The loop only appends state writes, and only for visited keys whose entity was added to the host, on a poll. */
  lemma {:induction false} DispatchWritten(t: Tracking, platforms: map<string, Platform>, sensors: set<string>, onPoll: bool,
                                           items: map<string, Record>, keys: seq<string>, k: string)
    requires forall i :: 0 <= i < |keys| ==> keys[i] in items
    ensures var u := Dispatch(t, platforms, sensors, onPoll, items, keys).t;
            && |t.written| <= |u.written| && u.written[..|t.written|] == t.written
            && (k in u.written[|t.written|..] ==> onPoll && k in keys && k in sensors)
    decreases |keys|
  {
    if keys != [] {
      var init := keys[..|keys| - 1];
      var last := keys[|keys| - 1];
      assert keys == init + [last];
      DispatchWritten(t, platforms, sensors, onPoll, items, init, k);
      var p := Dispatch(t, platforms, sensors, onPoll, items, init);
      var u := Dispatch(t, platforms, sensors, onPoll, items, keys).t;
      if p.error.None? && u.written != p.t.written {
        assert u.written == p.t.written + [last];
        assert u.written[|t.written|..] == p.t.written[|t.written|..] + [last];
      }
    }
  }

  /**
    * A loop over distinct keys that goes through classifies each device
    * against the record stored before the poll, stores what `Classify`
    * decides, registers exactly the reported devices that were not
    * registered, and writes the state of exactly the reported, registered
    * devices added to the host, on a poll.
    */
  lemma {:induction false} DispatchStores(t: Tracking, platforms: map<string, Platform>, sensors: set<string>, onPoll: bool,
                                          items: map<string, Record>, keys: seq<string>, k: string)
    requires forall i :: 0 <= i < |keys| ==> keys[i] in items
    requires Distinct(keys) && k in keys
    requires Dispatch(t, platforms, sensors, onPoll, items, keys).error.None?
    ensures var u := Dispatch(t, platforms, sensors, onPoll, items, keys).t;
            && Classify(Get(t.data, k), items[k]).Ok?
            && var s := Classify(Get(t.data, k), items[k]).value;
            && k in u.data && u.data[k] == s.stored
            && (k in u.registered - t.registered <==> s.updated && k !in t.registered)
    decreases |keys|
  {
    var init := keys[..|keys| - 1];
    var last := keys[|keys| - 1];
    ElementsIn(init, last);
    if k == last {
      DispatchDataFrame(t, platforms, sensors, onPoll, items, init, k);
      DispatchRegistered(t, platforms, sensors, onPoll, items, init, k);
    } else {
      assert k in init by { assert keys == init + [last]; }
      DispatchStores(t, platforms, sensors, onPoll, items, init, k);
    }
  }

  /** The last device of the loop appends its id to the writes iff it is reported, registered and added to the host, on a poll. */
  lemma DispatchWrittenLast(t: Tracking, platforms: map<string, Platform>, sensors: set<string>, onPoll: bool,
                            items: map<string, Record>, keys: seq<string>)
    requires forall i :: 0 <= i < |keys| ==> keys[i] in items
    requires keys != [] && Dispatch(t, platforms, sensors, onPoll, items, keys).error.None?
    ensures var p := Dispatch(t, platforms, sensors, onPoll, items, keys[..|keys| - 1]).t;
            var last := keys[|keys| - 1];
            && p.registered <= Dispatch(t, platforms, sensors, onPoll, items, keys).t.registered
            && Classify(Get(p.data, last), items[last]).Ok?
            && Dispatch(t, platforms, sensors, onPoll, items, keys).t.written
               == p.written + if onPoll && Classify(Get(p.data, last), items[last]).value.updated
                                && last in p.registered && last in sensors then [last] else []
  {
  }

  /** The writes after one more device: the earlier writes, then at most that device. */
  lemma WrittenAppend(pw: seq<string>, extra: seq<string>, n: nat, k: string)
    requires n <= |pw|
    ensures n <= |pw + extra|
    ensures k in (pw + extra)[n..] <==> k in pw[n..] || k in extra
  {
    assert (pw + extra)[n..] == pw[n..] + extra;
  }

  /** The last device of a poll over distinct keys has its state written iff it is reported, was registered before the loop and was added to the host. */
  lemma DispatchWritesLast(t: Tracking, platforms: map<string, Platform>, sensors: set<string>,
                           items: map<string, Record>, keys: seq<string>)
    requires forall i :: 0 <= i < |keys| ==> keys[i] in items
    requires Distinct(keys) && keys != []
    requires Dispatch(t, platforms, sensors, true, items, keys).error.None?
    ensures var u := Dispatch(t, platforms, sensors, true, items, keys).t;
            var last := keys[|keys| - 1];
            && Classify(Get(t.data, last), items[last]).Ok?
            && |t.written| <= |u.written|
            && (last in u.written[|t.written|..] <==>
                  Classify(Get(t.data, last), items[last]).value.updated && last in t.registered && last in sensors)
  {
    var init := keys[..|keys| - 1];
    var last := keys[|keys| - 1];
    ElementsIn(init, last);
    DispatchWrittenLast(t, platforms, sensors, true, items, keys);
    DispatchWritten(t, platforms, sensors, true, items, init, last);
    DispatchDataFrame(t, platforms, sensors, true, items, init, last);
    DispatchRegistered(t, platforms, sensors, true, items, init, last);
    var p := Dispatch(t, platforms, sensors, true, items, init).t;
    assert Get(p.data, last) == Get(t.data, last);
    var extra: seq<string> := if Classify(Get(p.data, last), items[last]).value.updated
                                 && last in p.registered && last in sensors then [last] else [];
    WrittenAppend(p.written, extra, |t.written|, last);
  }

  /** On a poll over distinct keys, the state is written exactly for the reported devices that were registered and added to the host. */
  lemma {:induction false} DispatchWrites(t: Tracking, platforms: map<string, Platform>, sensors: set<string>,
                                          items: map<string, Record>, keys: seq<string>, k: string)
    requires forall i :: 0 <= i < |keys| ==> keys[i] in items
    requires Distinct(keys) && k in keys
    requires Dispatch(t, platforms, sensors, true, items, keys).error.None?
    ensures var u := Dispatch(t, platforms, sensors, true, items, keys).t;
            && Classify(Get(t.data, k), items[k]).Ok?
            && |t.written| <= |u.written|
            && (k in u.written[|t.written|..] <==>
                  Classify(Get(t.data, k), items[k]).value.updated && k in t.registered && k in sensors)
    decreases |keys|
  {
    var init := keys[..|keys| - 1];
    var last := keys[|keys| - 1];
    if k == last {
      DispatchWritesLast(t, platforms, sensors, items, keys);
    } else {
      assert k in init by { assert keys == init + [last]; }
      DispatchWrites(t, platforms, sensors, items, init, k);
      DispatchWrittenLast(t, platforms, sensors, true, items, keys);
      var p := Dispatch(t, platforms, sensors, true, items, init).t;
      var extra: seq<string> := if Classify(Get(p.data, last), items[last]).value.updated
                                   && last in p.registered && last in sensors then [last] else [];
      WrittenAppend(p.written, extra, |t.written|, k);
    }
  }

  // ---------------------------------------------------------------------------
  // The scheduler

  /** `available`, `_update_listener` (a handle of the host's timer), and the handles cancelled so far. */
  datatype Scheduler = Scheduler(available: bool, listener: Option<nat>, cancelled: seq<nat>)

  /** Polling is on exactly while a listener is installed. */
  predicate Running(s: Scheduler) {
    s.available <==> s.listener.Some?
  }

  /** `async_start_scheduler` with `listener` the handle the host returns. */
  function Started(s: Scheduler, listener: nat): Scheduler {
    if s.available then s
    else Scheduler(true, Some(listener), if s.listener.Some? then s.cancelled + [s.listener.value] else s.cancelled)
  }

  /** `async_stop_scheduler` */
  function Stopped(s: Scheduler): Scheduler {
    if !s.available && s.listener.None? then s
    else Scheduler(false, None, if s.listener.Some? then s.cancelled + [s.listener.value] else s.cancelled)
  }

  /**
    * Starting leaves polling on with one listener: a running scheduler is left
    * as it is, a stopped one installs the new listener; a second start does
    * nothing.
    */
  lemma StartedSpec(s: Scheduler, listener: nat, other: nat)
    requires Running(s)
    ensures Running(Started(s, listener)) && Started(s, listener).available
    ensures s.available ==> Started(s, listener) == s
    ensures !s.available ==> Started(s, listener) == Scheduler(true, Some(listener), s.cancelled)
    ensures Started(Started(s, listener), other) == Started(s, listener)
  {
  }

  /**
    * Stopping leaves polling off with no listener, cancelling the installed
    * one; a stopped scheduler is left as it is, and a second stop does nothing.
    */
  lemma StoppedSpec(s: Scheduler)
    requires Running(s)
    ensures Running(Stopped(s)) && !Stopped(s).available && Stopped(s).listener.None?
    ensures !s.available ==> Stopped(s) == s
    ensures s.available ==> Stopped(s).cancelled == s.cancelled + [s.listener.value]
    ensures Stopped(Stopped(s)) == Stopped(s)
  {
  }

  /** Every listener a start installs is the one the next stop cancels. */
  lemma StartThenStop(s: Scheduler, listener: nat)
    requires Running(s) && !s.available
    ensures Stopped(Started(s, listener)) == Scheduler(false, None, s.cancelled + [listener])
  {
  }

  // ---------------------------------------------------------------------------
  // Removing an entity

  /** The entities added to the host, the registered entities, and the scheduler. */
  datatype Entities = Entities(sensors: set<string>, registered: set<string>, scheduler: Scheduler)

  /**
    * `async_will_remove_from_hass`: pop the entity from `sensors`, then from
    * `registered_entities` (each pop raises KeyError when the id is missing,
    * the first pop staying done), then stop polling if no entity is left.
    */
  function Removed(e: Entities, id: string): (Entities, Option<PyError>) {
    if id !in e.sensors then (e, Some(KeyError))
    else
      var popped := e.(sensors := e.sensors - {id});
      if id !in e.registered then (popped, Some(KeyError))
      else
        var unregistered := popped.(registered := e.registered - {id});
        if unregistered.sensors != {} then (unregistered, None)
        else (unregistered.(scheduler := Stopped(e.scheduler)), None)
  }

  /**
    * Removing an added, registered entity drops it from both and stops
    * polling iff it was the last added entity; the scheduler is untouched
    * otherwise, and by any removal that raises.
    */
  lemma RemovedSpec(e: Entities, id: string)
    ensures var (f, err) := Removed(e, id);
            && (err.None? <==> id in e.sensors && id in e.registered)
            && (id in e.sensors ==> f.sensors == e.sensors - {id})
            && (id !in e.sensors ==> f == e)
            && (err.None? ==> f.registered == e.registered - {id})
            && (err.Some? ==> f.registered == e.registered && f.scheduler == e.scheduler)
            && (err.None? ==> f.scheduler == if e.sensors == {id} then Stopped(e.scheduler) else e.scheduler)
  {
  }

  // ---------------------------------------------------------------------------
  // The data manager

  /** `HueSensorData` of the data manager; the host's entity objects are represented by their ids. */
  class HueSensorData {
    /** `self.data` */
    var data: map<string, Record>
    /** The keys of `self.sensors`: entities added to the host. */
    var sensors: set<string>
    /** The keys of `self.registered_entities`. */
    var registeredEntities: set<string>
    var available: bool
    /** `self._scan_interval`, in milliseconds. */
    var scanInterval: Option<int>
    /** `self._update_listener`, as the handle of the host's timer. */
    var listener: Option<nat>
    /** The listeners cancelled so far. */
    var cancelled: seq<nat>
    var registeredModels: set<string>
    var registeredPlatforms: map<string, Platform>
    /** The ids whose state was written to the host, in order. */
    var written: seq<string>
    /** The batches handed to the platforms' add functions, in order. */
    var handedOver: seq<Batch>

    ghost predicate Valid()
      reads this
    {
      Running(Scheduler(available, listener, cancelled))
    }

    constructor ()
      ensures Valid()
      ensures data == map[] && sensors == {} && registeredEntities == {} && !available && scanInterval.None?
      ensures listener.None? && cancelled == [] && registeredModels == {} && registeredPlatforms == map[]
      ensures written == [] && handedOver == []
    {
      data := map[];
      sensors := {};
      registeredEntities := {};
      available := false;
      scanInterval := None;
      listener := None;
      cancelled := [];
      registeredModels := {};
      registeredPlatforms := map[];
      written := [];
      handedOver := [];
    }

    /** `async_start_scheduler`; `newListener` is what `async_track_time_interval` returns. */
    method StartScheduler(newListener: nat)
      modifies this`available, this`listener, this`cancelled
      ensures Scheduler(available, listener, cancelled) == Started(old(Scheduler(available, listener, cancelled)), newListener)
    {
      if available {
        return;
      }
      var toCancel: seq<nat> := match listener case Some(l) => [l] case None => [];
      cancelled := cancelled + toCancel;
      listener := Some(newListener);
      available := true;
    }

    /** `async_stop_scheduler` */
    method StopScheduler()
      modifies this`available, this`listener, this`cancelled
      ensures Scheduler(available, listener, cancelled) == Stopped(old(Scheduler(available, listener, cancelled)))
    {
      if !available && listener.None? {
        return;
      }
      var toCancel: seq<nat> := match listener case Some(l) => [l] case None => [];
      cancelled := cancelled + toCancel;
      listener := None;
      available := false;
    }

    /** `HueSensorBaseDevice.async_added_to_hass` of the entity `id`. */
    method AddedToHass(id: string, newListener: nat)
      requires Valid()
      modifies this`sensors, this`available, this`listener, this`cancelled
      ensures Valid() && available
      ensures sensors == old(sensors) + {id}
      ensures Scheduler(available, listener, cancelled) == Started(old(Scheduler(available, listener, cancelled)), newListener)
    {
      StartedSpec(Scheduler(available, listener, cancelled), newListener, newListener);
      sensors := sensors + {id};
      StartScheduler(newListener);
    }

    /** `HueSensorBaseDevice.async_will_remove_from_hass` of the entity `id`. */
    method WillRemoveFromHass(id: string) returns (err: Option<PyError>)
      requires Valid()
      modifies this`sensors, this`registeredEntities, this`available, this`listener, this`cancelled
      ensures Valid()
      ensures (Entities(sensors, registeredEntities, Scheduler(available, listener, cancelled)), err)
              == Removed(old(Entities(sensors, registeredEntities, Scheduler(available, listener, cancelled))), id)
    {
      StoppedSpec(Scheduler(available, listener, cancelled));
      if id !in sensors {
        return Some(KeyError);
      }
      sensors := sensors - {id};
      if id !in registeredEntities {
        return Some(KeyError);
      }
      registeredEntities := registeredEntities - {id};
      if sensors != {} {
        return None;
      }
      StopScheduler();
      return None;
    }

    /**
      * `_add_new_entities`: every batch is handed to its add function in
      * order, and a given scan interval is adopted when none is set and there
      * is at least one batch.
      */
    method AddNewEntities(pending: seq<Batch>, interval: Option<int>)
      modifies this`handedOver, this`scanInterval
      ensures handedOver == old(handedOver) + pending
      ensures scanInterval == if old(scanInterval).None? && interval.Some? && pending != [] then interval else old(scanInterval)
    {
      var i := 0;
      while i < |pending|
        invariant i <= |pending|
        invariant handedOver == old(handedOver) + pending[..i]
        invariant scanInterval == if old(scanInterval).None? && interval.Some? && i > 0 then interval else old(scanInterval)
      {
        handedOver := handedOver + [pending[i]];
        if interval.Some? && scanInterval.None? {
          scanInterval := interval;
        }
        i := i + 1;
      }
      assert pending[..i] == pending;
    }

    /**
      * `async_update_from_bridges` for one bridge: the parse of the records of
      * the registered models, the loop, and the hand-over of the new entities
      * when the loop went through, without a scan interval.
      */
    method UpdateFromBridges(c: ButtonCodes, raws: seq<RawSensor>) returns (err: Option<PyError>)
      requires c.Valid()
      modifies this`data, this`registeredEntities, this`written, this`handedOver
      ensures var d := Parsed(c, raws, registeredModels);
              var p := Dispatch(Tracking(old(data), old(registeredEntities), [], old(written)), registeredPlatforms, sensors, true, d.items, d.keys);
              && data == p.t.data && registeredEntities == p.t.registered && written == p.t.written && err == p.error
              && handedOver == old(handedOver) + if p.error.None? then p.t.pending else []
    {
      var d := HueApiResponse.ParseHueApiResponse(c, Matching(raws, registeredModels));
      assert d == Parsed(c, raws, registeredModels);
      var p := DispatchAll(Tracking(data, registeredEntities, [], written), registeredPlatforms, sensors, true, d);
      data, registeredEntities, written := p.t.data, p.t.registered, p.t.written;
      err := p.error;
      if err.None? {
        handedOver := handedOver + p.t.pending;
      }
    }

    /**
      * `async_add_platform_entities`: the platform is registered for each of
      * its models, the records of those models are parsed and their new
      * devices registered, and the new entities are handed over with the
      * platform's scan interval.
      */
    method AddPlatformEntities(entityCls: string, platformModels: seq<string>, addFn: nat, interval: Option<int>,
                               c: ButtonCodes, raws: seq<RawSensor>) returns (err: Option<PyError>)
      requires c.Valid()
      modifies this`registeredPlatforms, this`registeredModels, this`data, this`registeredEntities,
               this`handedOver, this`scanInterval
      ensures registeredPlatforms == WithPlatform(old(registeredPlatforms), platformModels, Platform(entityCls, addFn))
      ensures registeredModels == old(registeredModels) + Models(platformModels)
      ensures var d := Parsed(c, raws, Models(platformModels));
              var p := Dispatch(Tracking(old(data), old(registeredEntities), [], written), registeredPlatforms, sensors, false, d.items, d.keys);
              && data == p.t.data && registeredEntities == p.t.registered && err == p.error
              && handedOver == old(handedOver) + (if p.error.None? then p.t.pending else [])
              && scanInterval == if p.error.None? && old(scanInterval).None? && interval.Some? && p.t.pending != [] then interval else old(scanInterval)
    {
      registeredPlatforms, registeredModels := RegisterPlatform(registeredPlatforms, registeredModels, platformModels, Platform(entityCls, addFn));
      var d := HueApiResponse.ParseHueApiResponse(c, Matching(raws, Models(platformModels)));
      assert d == Parsed(c, raws, Models(platformModels));
      var p := DispatchAll(Tracking(data, registeredEntities, [], written), registeredPlatforms, sensors, false, d);
      DispatchKeepsWritten(Tracking(data, registeredEntities, [], written), registeredPlatforms, sensors, d.items, d.keys);
      data, registeredEntities := p.t.data, p.t.registered;
      err := p.error;
      if err.Some? {
        return;
      }
      AddNewEntities(p.t.pending, interval);
    }
  }

  /** The models of a platform, as `tuple(platform_models)` filters them. */
  function Models(platformModels: seq<string>): set<string> {
    set m | m in platformModels
  }

  /** The platform map once the platform is registered for each model in turn. */
  function WithPlatform(platforms: map<string, Platform>, platformModels: seq<string>, platform: Platform): (r: map<string, Platform>)
    decreases |platformModels|
  {
    if platformModels == [] then platforms
    else WithPlatform(platforms, platformModels[..|platformModels| - 1], platform)[platformModels[|platformModels| - 1] := platform]
  }

  /** Each model of the platform maps to it, and every other registration survives. */
  lemma {:induction false} WithPlatformSpec(platforms: map<string, Platform>, platformModels: seq<string>, platform: Platform, m: string)
    ensures var r := WithPlatform(platforms, platformModels, platform);
            && (m in r <==> m in platforms || m in platformModels)
            && (m in platformModels ==> r[m] == platform)
            && (m !in platformModels && m in platforms ==> r[m] == platforms[m])
    decreases |platformModels|
  {
    if platformModels != [] {
      assert platformModels == platformModels[..|platformModels| - 1] + [platformModels[|platformModels| - 1]];
      WithPlatformSpec(platforms, platformModels[..|platformModels| - 1], platform, m);
    }
  }

  /** The loop of `async_add_platform_entities` that registers the platform for each of its models. */
  method RegisterPlatform(platforms: map<string, Platform>, models: set<string>, platformModels: seq<string>, platform: Platform)
    returns (ps: map<string, Platform>, ms: set<string>)
    ensures ps == WithPlatform(platforms, platformModels, platform)
    ensures ms == models + Models(platformModels)
  {
    ps, ms := platforms, models;
    var i := 0;
    while i < |platformModels|
      invariant i <= |platformModels|
      invariant ps == WithPlatform(platforms, platformModels[..i], platform)
      invariant ms == models + Models(platformModels[..i])
    {
      assert platformModels[..i + 1][..i] == platformModels[..i];
      assert Models(platformModels[..i + 1]) == Models(platformModels[..i]) + {platformModels[i]} by {
        assert platformModels[..i + 1] == platformModels[..i] + [platformModels[i]];
      }
      ps := ps[platformModels[i] := platform];
      ms := ms + {platformModels[i]};
      i := i + 1;
    }
    assert platformModels[..i] == platformModels;
  }

  /** The loop of `_iter_data` and its consumer over one parse, from `new_entities_to_add = {}`. */
  method DispatchAll(t: Tracking, platforms: map<string, Platform>, sensors: set<string>, onPoll: bool, d: Dict)
    returns (p: Progress)
    requires d.Listed()
    ensures p == Dispatch(t, platforms, sensors, onPoll, d.items, d.keys)
  {
    var keys := d.keys;
    p := Progress(t, None);
    var i := 0;
    while i < |keys| && p.error.None?
      invariant i <= |keys|
      invariant p == Dispatch(t, platforms, sensors, onPoll, d.items, keys[..i])
    {
      assert keys[..i + 1][..i] == keys[..i];
      p := DispatchOne(p.t, platforms, sensors, onPoll, keys[i], d.items[keys[i]]);
      i := i + 1;
    }
    if i < |keys| {
      DispatchPrefixRaises(t, platforms, sensors, onPoll, d.items, keys, i);
    } else {
      assert keys[..i] == keys;
    }
  }

  /** The body of the loop for one device. */
  method DispatchOne(t: Tracking, platforms: map<string, Platform>, sensors: set<string>, onPoll: bool, id: string, dev: Record)
    returns (p: Progress)
    ensures p == Step(t, platforms, sensors, onPoll, id, dev)
  {
    var sighting := ClassifyOne(Get(t.data, id), dev);
    if sighting.Raises? {
      return Progress(t, Some(sighting.error));
    }
    var s := sighting.value;
    var stored := t.(data := t.data[id := s.stored]);
    if s.updated && id !in t.registered {
      if !(s.model.VStr? && s.model.s in platforms) {
        return Progress(stored, Some(KeyError));
      }
      var platform := platforms[s.model.s];
      return Progress(stored.(registered := t.registered + {id}, pending := Enqueue(t.pending, platform.addFn, platform.entityCls, id)), None);
    } else if onPoll && s.updated && id !in sensors {
      return Progress(stored, None);
    } else if onPoll && s.updated {
      return Progress(stored.(written := t.written + [id]), None);
    }
    return Progress(stored, None);
  }

  /** The classifying part of the loop body, on a copy of the stored record. */
  method ClassifyOne(oldRecord: Option<Record>, devData: Record) returns (r: Result<Sighting>)
    ensures r == Classify(oldRecord, devData)
  {
    var devModel :- Index(devData, Model);
    var dev := devData;
    if devModel == SML {
      dev := dev[Changed := VBool(true)];
    }
    if Falsy(oldRecord) {
      return Ok(Sighting(true, devModel, dev));
    } else if oldRecord.value != dev {
      var updated := true;
      var oldUpdated :- Index(oldRecord.value, LastUpdated);
      var devUpdated :- Index(dev, LastUpdated);
      if oldUpdated == devUpdated {
        var oldState :- Index(oldRecord.value, State);
        var devState :- Index(dev, State);
        if oldState == devState {
          if devModel == SML {
            dev := dev[Changed := VBool(false)];
          }
          updated := false;
        }
      }
      return Ok(Sighting(updated, devModel, oldRecord.value + dev));
    }
    return Ok(Sighting(false, devModel, oldRecord.value));
  }

  /** The platform setup writes no state. */
  lemma {:induction false} DispatchKeepsWritten(t: Tracking, platforms: map<string, Platform>, sensors: set<string>,
                                                items: map<string, Record>, keys: seq<string>)
    requires forall i :: 0 <= i < |keys| ==> keys[i] in items
    ensures Dispatch(t, platforms, sensors, false, items, keys).t.written == t.written
    decreases |keys|
  {
    if keys != [] {
      DispatchKeepsWritten(t, platforms, sensors, items, keys[..|keys| - 1]);
    }
  }
}
