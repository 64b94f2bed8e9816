/**
  * A raw sensor record as the Hue bridge reports it (`sensor.raw`), reduced to
  * the entries the parsers read. Entries that JSON may carry as `null` and that
  * the parsers test for `None` are `Option`s or `Value`s holding `VNone`.
  */
module BridgeRecord {
  import opened PyBase

  /** `raw["state"]` */
  datatype RawState = RawState(
    presence: Value,
    lightlevel: Option<int>,
    dark: Value,
    daylight: Value,
    temperature: Option<int>,
    buttonevent: Option<int>,
    rotaryevent: Option<int>,
    expectedrotation: Value,
    lastupdated: string)

  /** `raw["config"]` */
  datatype RawConfig = RawConfig(
    battery: Value,
    on: Value,
    reachable: Value,
    sensitivity: Value,
    tholddark: Value,
    tholdoffset: Value,
    configured: Value,
    sunriseoffset: Value,
    sunsetoffset: Value)

  /** `sensor.raw`; `sensorType` is `raw["type"]` and `swupdateState` is `raw["swupdate"]["state"]`. */
  datatype RawSensor = RawSensor(
    modelid: string,
    uniqueid: string,
    sensorType: string,
    name: string,
    state: RawState,
    config: RawConfig,
    swupdateState: Value,
    swversion: Value)

  /** `raw["modelid"][0:3]`, the model prefix every revision dispatches on. */
  function ModelPrefix(r: RawSensor): (p: string)
    ensures |p| == if |r.modelid| < 3 then |r.modelid| else 3
    ensures p <= r.modelid
  {
    SliceTake(r.modelid, 3);
    Slice(r.modelid, Some(0), Some(3))
  }

  /** `raw["state"]["lastupdated"].split("T")`: the date and the time of day. */
  function UpdatedParts(r: RawSensor): (v: Value)
    ensures v.VList? && Join(v.items, "T") == r.state.lastupdated
  {
    JoinSplit(r.state.lastupdated, 'T');
    VList(Split(r.state.lastupdated, 'T'))
  }

  /** `s.startswith(prefixes)` for a tuple of prefixes. */
  predicate StartsWithAny(s: string, prefixes: set<string>) {
    exists p :: p in prefixes && p <= s
  }

  /**
    * `arr = name.split(); arr.insert(-1, "motion"); " ".join(arr)`: the motion
    * sensor's name with "motion" put before its last word.
    */
  function MotionName(name: string): string {
    Join(Insert(Words(name), -1, "motion"), " ")
  }

  /**
    * The words of the new name are the old words with "motion" before the last
    * one: "Living room sensor" becomes "Living room motion sensor".
    */
  lemma MotionNameWords(name: string)
    ensures var ws := Words(name);
            Words(MotionName(name)) == if ws == [] then ["motion"] else ws[..|ws| - 1] + ["motion", ws[|ws| - 1]]
  {
    var ws := Words(name);
    InsertBeforeLast(ws, "motion");
    MotionIsWord();
    InsertWordIsWords(ws, "motion");
    WordsOfJoin(Insert(ws, -1, "motion"));
  }

  /** "Living room sensor" becomes "Living room motion sensor". */
  lemma MotionNameExample()
    ensures MotionName("Living room sensor") == "Living room motion sensor"
  {
    ExampleWords();
    ExampleInsert();
    ExampleJoin();
  }

  lemma ExampleWords()
    ensures Words("Living room sensor") == ["Living", "room", "sensor"]
  {
    var ws := ["Living", "room", "sensor"];
    assert IsWord("Living") && IsWord("room") && IsWord("sensor");
    assert Join(ws, " ") == "Living room sensor";
    WordsOfJoin(ws);
  }

  lemma ExampleInsert()
    ensures Insert(["Living", "room", "sensor"], -1, "motion") == ["Living", "room", "motion", "sensor"]
  {
    InsertBeforeLast(["Living", "room", "sensor"], "motion");
  }

  lemma ExampleJoin()
    ensures Join(["Living", "room", "motion", "sensor"], " ") == "Living room motion sensor"
  {
  }

  lemma MotionIsWord()
    ensures IsWord("motion")
  {
  }

  lemma InsertWordIsWords(ws: seq<string>, w: string)
    requires IsWord(w)
    requires forall i :: 0 <= i < |ws| ==> IsWord(ws[i])
    ensures forall i :: 0 <= i < |Insert(ws, -1, w)| ==> IsWord(Insert(ws, -1, w)[i])
  {
    var ins := Insert(ws, -1, w);
    InsertBeforeLast(ws, w);
    forall i | 0 <= i < |ins| ensures IsWord(ins[i]) {
      if ws != [] && i < |ws| - 1 { assert ins[i] == ws[i]; }
      else if ws != [] && i == |ws| { assert ins[i] == ws[|ws| - 1]; }
    }
  }

  /** `STATE_ON if presence is True else STATE_OFF` */
  function OnOff(flag: Value): (s: string)
    ensures s == STATE_ON <==> flag == VBool(true)
  {
    if flag == VBool(true) then STATE_ON else STATE_OFF
  }

  /** `(sensor.raw for sensor in sensors if sensor.type != TYPE_GEOFENCE)`, in bridge order. */
  function NonGeofence(raws: seq<RawSensor>): (rs: seq<RawSensor>)
    ensures forall i :: 0 <= i < |rs| ==> rs[i].sensorType != TYPE_GEOFENCE
    ensures |rs| <= |raws|
    decreases |raws|
  {
    if raws == [] then []
    else
      var rest := NonGeofence(raws[..|raws| - 1]);
      if raws[|raws| - 1].sensorType == TYPE_GEOFENCE then rest else rest + [raws[|raws| - 1]]
  }

  /** The filter keeps exactly the records that are not geofences. */
  lemma {:induction false} NonGeofenceKeeps(raws: seq<RawSensor>, r: RawSensor)
    ensures r in NonGeofence(raws) <==> r in raws && r.sensorType != TYPE_GEOFENCE
    decreases |raws|
  {
    if raws != [] {
      NonGeofenceKeeps(raws[..|raws| - 1], r);
      assert raws == raws[..|raws| - 1] + [raws[|raws| - 1]];
    }
  }

  const STATE_ON: string := "on"
  const STATE_OFF: string := "off"

  /** The bridge's geofence sensors, which the remote and sensor platforms filter out. */
  const TYPE_GEOFENCE: string := "Geofence"
}
