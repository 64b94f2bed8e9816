/**
  * `custom_components/huesensor/hue_api_response.py`: the newest revision of the
  * parsing layer. Each raw record is identified (a device key and a parser) and
  * parsed, and every parsed record is merged into the entry of its key.
  */
module HueApiResponse {
  import opened PyBase
  import opened BridgeRecord
  import opened ButtonTables
  import opened Aggregation

  /** The parser `_ident_raw_sensor` picks. */
  datatype Parser = ParseSml | ParseRwl | ParseFoh | ParseZgp | ParseZ3Rotary | ParseZ3Switch

  /** `(sensor_key, parser)`, or `(None, None)` for a record of no known model. */
  datatype Ident = Unknown | Known(key: string, parser: Parser)

  /** `_ident_raw_sensor` */
  function IdentRawSensor(r: RawSensor): Ident {
    var modelId := ModelPrefix(r);
    var u := r.uniqueid;
    if modelId == "SML" then Known(modelId + "_" + Slice(u, None, Some(-5)), ParseSml)
    else if modelId == "RWL" || modelId == "ROM" then Known(modelId + "_" + Slice(u, None, Some(-5)), ParseRwl)
    else if modelId == "FOH" || modelId == "ZGP" then
      var key := modelId + "_" + Slice(u, Some(-14), Some(-3));
      if modelId == "FOH" then Known(key, ParseFoh) else Known(key, ParseZgp)
    else if modelId == "Z3-" then
      if r.sensorType == "ZLLRelativeRotary" then Known(modelId + "_" + Slice(u, None, Some(-5)), ParseZ3Rotary)
      else Known(modelId + "_" + u, ParseZ3Switch)
    else Unknown
  }

  /** The part of `uniqueid` that follows `"<model>_"` in the key of each family. */
  function KeySuffix(p: Parser, u: string): string {
    match p
    case ParseSml | ParseRwl | ParseZ3Rotary => if |u| >= 5 then u[..|u| - 5] else []
    case ParseFoh | ParseZgp => if |u| >= 14 then u[|u| - 14..|u| - 3] else if |u| >= 3 then u[..|u| - 3] else []
    case ParseZ3Switch => u
  }

  /**
    * A record is identified iff its model prefix is one of SML, RWL, ROM, FOH,
    * ZGP, Z3-, and then its key is the prefix, `"_"`, and the family's part of
    * `uniqueid`: all but the last five characters for SML, RWL, ROM and the
    * Aurora dial, the eleven characters before the last three for FOH and ZGP,
    * and all of it for the Aurora switch.
    */
  lemma IdentRawSensorSpec(r: RawSensor)
    ensures IdentRawSensor(r).Known? <==> ModelPrefix(r) in {"SML", "RWL", "ROM", "FOH", "ZGP", "Z3-"}
    ensures IdentRawSensor(r).Known? ==>
              IdentRawSensor(r).key == ModelPrefix(r) + "_" + KeySuffix(IdentRawSensor(r).parser, r.uniqueid)
    ensures IdentRawSensor(r).Known? ==>
              IdentRawSensor(r).parser == match ModelPrefix(r)
                case "SML" => ParseSml
                case "RWL" => ParseRwl
                case "ROM" => ParseRwl
                case "FOH" => ParseFoh
                case "ZGP" => ParseZgp
                case _ => if r.sensorType == "ZLLRelativeRotary" then ParseZ3Rotary else ParseZ3Switch
  {
    SliceDropLast(r.uniqueid, 5);
    SliceWindow(r.uniqueid, 14, 3);
  }

  /** The Hue Tap of the test fixtures: `"00:00:00:00:00:44:23:08-f2"` is keyed `"ZGP_00:44:23:08"`. */
  lemma IdentZgpExample(r: RawSensor)
    requires r.modelid == "ZGPSWITCH" && r.uniqueid == "00:00:00:00:00:44:23:08-f2"
    ensures IdentRawSensor(r) == Known("ZGP_00:44:23:08", ParseZgp)
  {
    IdentRawSensorSpec(r);
    assert ModelPrefix(r) == "ZGP";
  }

  /** The motion sensor's three records (`...-0406`, `...-0400`, `...-0402`) share one key. */
  lemma IdentSmlSameDevice(a: RawSensor, b: RawSensor)
    requires ModelPrefix(a) == "SML" && ModelPrefix(b) == "SML"
    requires |a.uniqueid| >= 5 && |b.uniqueid| >= 5
    requires a.uniqueid[..|a.uniqueid| - 5] == b.uniqueid[..|b.uniqueid| - 5]
    ensures IdentRawSensor(a) == IdentRawSensor(b)
  {
    IdentRawSensorSpec(a);
    IdentRawSensorSpec(b);
  }

  /**
    * The Aurora's dial record (`...-fc00-0014`) and its switch record
    * (`...-fc00`) share one key, so their parses merge into one device.
    */
  lemma IdentZ3SameDevice(dial: RawSensor, switch: RawSensor)
    requires ModelPrefix(dial) == "Z3-" && ModelPrefix(switch) == "Z3-"
    requires dial.sensorType == "ZLLRelativeRotary" && switch.sensorType != "ZLLRelativeRotary"
    requires |dial.uniqueid| >= 5 && dial.uniqueid[..|dial.uniqueid| - 5] == switch.uniqueid
    ensures IdentRawSensor(dial) == Known(IdentRawSensor(switch).key, ParseZ3Rotary)
    ensures IdentRawSensor(switch) == Known("Z3-_" + switch.uniqueid, ParseZ3Switch)
  {
    IdentRawSensorSpec(dial);
    IdentRawSensorSpec(switch);
  }

  // ---------------------------------------------------------------------------
  // Parsers

  const NO_DATA: Value := VStr("No data")

  /** `parse_sml`: one of the motion sensor's three facets, or `{}` for any other type. */
  function Sml(r: RawSensor): Record {
    if r.sensorType == "ZLLLightLevel" then
      if r.state.lightlevel.Some? then
        var level := r.state.lightlevel.value;
        map[LightLevel := VInt(level), Lx := VLux(level), Dark := r.state.dark, Daylight := r.state.daylight,
            ThresholdDark := r.config.tholddark, ThresholdOffset := r.config.tholdoffset]
      else
        map[LightLevel := VStr("No light level data"), Lx := VNone, Dark := VNone, Daylight := VNone,
            ThresholdDark := VNone, ThresholdOffset := VNone]
    else if r.sensorType == "ZLLTemperature" then
      map[Temperature := if r.state.temperature.Some? then VHundredths(r.state.temperature.value)
                         else VStr("No temperature data")]
    else if r.sensorType == "ZLLPresence" then
      map[Model := VStr("SML"), Name := VStr(MotionName(r.name)), State := VStr(OnOff(r.state.presence)),
          Battery := r.config.battery, On := r.config.on, Reachable := r.config.reachable,
          Sensitivity := r.config.sensitivity, LastUpdated := UpdatedParts(r)]
    else map[]
  }

  /** `parse_zgp` */
  function Zgp(c: ButtonCodes, r: RawSensor): Record
    requires c.Valid()
  {
    var button := GetOr(TapButtons(c), r.state.buttonevent, NO_DATA);
    map[Model := VStr("ZGP"), Name := VStr(r.name), State := button, LastButtonEvent := button,
        LastUpdated := UpdatedParts(r)]
  }

  /** The body of `parse_rwl`, reading the button from `table`. */
  function RwlWith(table: map<int, string>, r: RawSensor): Record {
    var button := GetOr(table, r.state.buttonevent, VNone);
    map[Model := VStr("RWL"), Name := VStr(r.name), State := button, Battery := r.config.battery,
        On := r.config.on, Reachable := r.config.reachable, LastButtonEvent := button,
        LastUpdated := UpdatedParts(r)]
  }

  /** `parse_rwl`, over `RWL_BUTTONS` as written. */
  function Rwl(c: ButtonCodes, r: RawSensor): Record
    requires c.Valid()
  {
    RwlWith(RwlButtonsAsWritten(c), r)
  }

  /** `parse_rwl` over the dimmer table its pattern intends. */
  function RwlIntended(c: ButtonCodes, r: RawSensor): Record
    requires c.Valid()
  {
    RwlWith(RwlButtons(c), r)
  }

  /** `parse_foh` */
  function Foh(r: RawSensor): Record {
    var button := GetOr(FOH_BUTTONS, r.state.buttonevent, NO_DATA);
    map[Model := VStr("FOH"), Name := VStr(r.name), State := button, LastButtonEvent := button,
        LastUpdated := UpdatedParts(r)]
  }

  /** `parse_z3_rotary` */
  function Z3Rotary(r: RawSensor): Record {
    map[Model := VStr("Z3-"), Name := VStr(r.name), DialState := GetOr(Z3_DIAL, r.state.rotaryevent, NO_DATA),
        DialPosition := r.state.expectedrotation, SoftwareUpdate := r.swupdateState,
        Battery := r.config.battery, On := r.config.on, Reachable := r.config.reachable,
        LastUpdated := UpdatedParts(r)]
  }

  /** `parse_z3_switch` */
  function Z3Switch(r: RawSensor): Record {
    var button := GetOr(Z3_BUTTON, r.state.buttonevent, NO_DATA);
    map[LastButtonEvent := button, State := button, LastUpdated := UpdatedParts(r)]
  }

  /** `_raw_parser(sensor)` for the parser `_ident_raw_sensor` chose. */
  function Parse(c: ButtonCodes, p: Parser, r: RawSensor): Record
    requires c.Valid()
  {
    match p
    case ParseSml => Sml(r)
    case ParseRwl => Rwl(c, r)
    case ParseFoh => Foh(r)
    case ParseZgp => Zgp(c, r)
    case ParseZ3Rotary => Z3Rotary(r)
    case ParseZ3Switch => Z3Switch(r)
  }

  /**
    * Every button parser reports the decoded button as both `state` and
    * `last_button_event`; a missing or unknown code reads "No data", except
    * on the dimmer, where it reads `None`.
    */
  lemma ButtonParsersAgree(c: ButtonCodes, p: Parser, r: RawSensor)
    requires c.Valid() && p in {ParseRwl, ParseFoh, ParseZgp, ParseZ3Switch}
    ensures var d := Parse(c, p, r);
            State in d && LastButtonEvent in d && d[State] == d[LastButtonEvent]
    ensures var d := Parse(c, p, r);
            var table := match p
              case ParseRwl => RwlButtonsAsWritten(c)
              case ParseFoh => FOH_BUTTONS
              case ParseZgp => TapButtons(c)
              case _ => Z3_BUTTON;
            var e := r.state.buttonevent;
            if e.Some? && e.value in table then d[State] == VStr(table[e.value])
            else d[State] == if p == ParseRwl then VNone else NO_DATA
  {
  }

  /** As written, the initial press of any dimmer button parses as "1_click". */
  lemma RwlInitialPressReadsOne(c: ButtonCodes, r: RawSensor, n: nat)
    requires c.Valid() && n < 4 && r.state.buttonevent == Some(c.initialPress[n])
    ensures Rwl(c, r)[State] == VStr("1_click") && Rwl(c, r)[LastButtonEvent] == VStr("1_click")
    ensures n > 0 ==> Rwl(c, r)[State] != RwlIntended(c, r)[State]
  {
    RwlInitialPressCollapses(c, n);
  }

  /** With the intended table, the initial press of button n parses as "n_click". */
  lemma RwlIntendedPress(c: ButtonCodes, r: RawSensor, n: nat)
    requires c.Valid() && n < 4 && r.state.buttonevent == Some(c.initialPress[n])
    ensures RwlIntended(c, r)[State] == VStr(ButtonTag(n + 1, "_click"))
    ensures RwlIntended(c, r)[LastButtonEvent] == VStr(ButtonTag(n + 1, "_click"))
  {
    RwlButtonsPressHold(c, n);
  }

  /** The two parsers agree on every record but an initial press of buttons 2 to 4. */
  lemma RwlIntendedAgrees(c: ButtonCodes, r: RawSensor)
    requires c.Valid()
    requires forall n :: 1 <= n < 4 ==> r.state.buttonevent != Some(c.initialPress[n])
    ensures Rwl(c, r) == RwlIntended(c, r)
  {
    var e := r.state.buttonevent;
    if e.Some? {
      RwlTablesAgreeElsewhere(c, e.value);
    }
  }

  /** The dial reads "begin" or "end" for a known rotary event and "No data" otherwise. */
  lemma Z3RotaryDial(r: RawSensor)
    ensures var e := r.state.rotaryevent;
            Z3Rotary(r)[DialState] == if e == Some(1) then VStr("begin") else if e == Some(2) then VStr("end") else NO_DATA
  {
  }

  /**
    * The presence facet: the name with "motion" put before its last word, the
    * state "on" exactly when presence is `True`, and `last_updated` the pieces
    * of `lastupdated` around "T".
    */
  lemma PresenceFacet(r: RawSensor)
    requires r.sensorType == "ZLLPresence"
    ensures var d := Sml(r);
            && d.Keys == {Model, Name, State, Battery, On, Reachable, Sensitivity, LastUpdated}
            && d[Model] == VStr("SML") && d[Name] == VStr(MotionName(r.name))
            && (d[State] == VStr(STATE_ON) <==> r.state.presence == VBool(true))
            && (d[State] != VStr(STATE_ON) ==> d[State] == VStr(STATE_OFF))
            && d[LastUpdated].VList? && Join(d[LastUpdated].items, "T") == r.state.lastupdated
            && d[Sensitivity] == r.config.sensitivity
  {
  }

  /**
    * The light-level facet copies the reading, `dark`, `daylight` and both
    * thresholds; with no reading it holds "No light level data" and five `None`s.
    */
  lemma LightLevelFacet(r: RawSensor)
    requires r.sensorType == "ZLLLightLevel"
    ensures var d := Sml(r);
            && d.Keys == {LightLevel, Lx, Dark, Daylight, ThresholdDark, ThresholdOffset}
            && (r.state.lightlevel.Some? ==>
                  d[LightLevel] == VInt(r.state.lightlevel.value) && d[Dark] == r.state.dark
                  && d[Daylight] == r.state.daylight && d[ThresholdDark] == r.config.tholddark
                  && d[ThresholdOffset] == r.config.tholdoffset)
            && (r.state.lightlevel.None? ==>
                  d[LightLevel] == VStr("No light level data")
                  && d[Lx] == VNone && d[Dark] == VNone && d[Daylight] == VNone
                  && d[ThresholdDark] == VNone && d[ThresholdOffset] == VNone)
  {
  }

  /** The temperature facet holds the reading in hundredths of a degree (1744 is 17.44), or "No temperature data". */
  lemma TemperatureFacet(r: RawSensor)
    requires r.sensorType == "ZLLTemperature"
    ensures Sml(r).Keys == {Temperature}
    ensures Sml(r)[Temperature] == if r.state.temperature.Some? then VHundredths(r.state.temperature.value)
                                   else VStr("No temperature data")
  {
  }

  /** The fields of each facet of the motion sensor. */
  function SmlFields(sensorType: string): set<Field> {
    if sensorType == "ZLLLightLevel" then {LightLevel, Lx, Dark, Daylight, ThresholdDark, ThresholdOffset}
    else if sensorType == "ZLLTemperature" then {Temperature}
    else if sensorType == "ZLLPresence" then {Model, Name, State, Battery, On, Reachable, Sensitivity, LastUpdated}
    else {}
  }

  /** Each record type gives its own fields, and any other record type gives `{}`. */
  lemma SmlKeys(r: RawSensor)
    ensures Sml(r).Keys == SmlFields(r.sensorType)
  {
  }

  /** The three facets of a motion sensor have no field in common. */
  lemma SmlFacetsDisjoint(a: RawSensor, b: RawSensor)
    requires a.sensorType != b.sensorType
    ensures Sml(a).Keys !! Sml(b).Keys
  {
    SmlKeys(a);
    SmlKeys(b);
    SmlFieldsDisjoint(a.sensorType, b.sensorType);
  }

  lemma SmlFieldsDisjoint(t1: string, t2: string)
    requires t1 != t2
    ensures SmlFields(t1) !! SmlFields(t2)
  {
  }

  // ---------------------------------------------------------------------------
  // The aggregation loop

  /** What one raw record contributes: nothing if unidentified, else a merge of its parse into its key. */
  function ToFacet(c: ButtonCodes, r: RawSensor): (f: Facet)
    requires c.Valid()
    ensures f.Skip? <==> IdentRawSensor(r).Unknown?
    ensures !f.Skip? ==> f == Merge(IdentRawSensor(r).key, Parse(c, IdentRawSensor(r).parser, r))
  {
    match IdentRawSensor(r)
    case Unknown => Skip
    case Known(key, p) => Merge(key, Parse(c, p, r))
  }

  function Facets(c: ButtonCodes, sensors: seq<RawSensor>): (fs: seq<Facet>)
    requires c.Valid()
    ensures |fs| == |sensors| && forall i :: 0 <= i < |sensors| ==> fs[i] == ToFacet(c, sensors[i])
  {
    seq(|sensors|, i requires 0 <= i < |sensors| => ToFacet(c, sensors[i]))
  }

  /** `parse_hue_api_response`: identify, parse, and merge into the entry of the key. */
  method ParseHueApiResponse(c: ButtonCodes, sensors: seq<RawSensor>) returns (dataDict: Dict)
    requires c.Valid()
    ensures dataDict == Collect(Facets(c, sensors))
  {
    dataDict := EmptyDict;
    var i := 0;
    while i < |sensors|
      invariant i <= |sensors|
      invariant dataDict == Collect(Facets(c, sensors[..i]))
    {
      var sensor := sensors[i];
      assert Facets(c, sensors[..i + 1]) == Facets(c, sensors[..i]) + [ToFacet(c, sensor)];
      match IdentRawSensor(sensor) {
        case Unknown =>
        case Known(key, parser) =>
          var parsedSensor := Parse(c, parser, sensor);
          if key !in dataDict.items {
            dataDict := dataDict.Assign(key, parsedSensor);
          } else {
            dataDict := dataDict.Assign(key, dataDict.items[key] + parsedSensor);
          }
      }
      i := i + 1;
    }
    assert sensors[..i] == sensors;
  }

  /** The result's keys are exactly the keys of the identified records; unidentified ones leave no trace. */
  lemma ResultKeys(c: ButtonCodes, sensors: seq<RawSensor>, k: string)
    requires c.Valid()
    ensures k in Collect(Facets(c, sensors)).items <==>
              exists i :: 0 <= i < |sensors| && IdentRawSensor(sensors[i]) != Unknown && IdentRawSensor(sensors[i]).key == k
  {
    var fs := Facets(c, sensors);
    CollectKeys(fs, k);
    if exists i :: 0 <= i < |fs| && Names(fs[i], k) {
      var i :| 0 <= i < |fs| && Names(fs[i], k);
      assert IdentRawSensor(sensors[i]) != Unknown;
    }
  }

  /** Each key appears once in the result, in the order of its first record. */
  lemma ResultOrder(c: ButtonCodes, sensors: seq<RawSensor>, i: nat, j: nat)
    requires c.Valid() && i < j < |sensors|
    requires IdentRawSensor(sensors[i]).Known? && IdentRawSensor(sensors[j]).Known?
    requires IdentRawSensor(sensors[i]).key != IdentRawSensor(sensors[j]).key
    requires forall m :: 0 <= m < i ==> IdentRawSensor(sensors[m]) == Unknown || IdentRawSensor(sensors[m]).key != IdentRawSensor(sensors[j]).key
    ensures var d := Collect(Facets(c, sensors));
            d.Valid() && Position(d.keys, IdentRawSensor(sensors[i]).key) < Position(d.keys, IdentRawSensor(sensors[j]).key)
  {
    var fs := Facets(c, sensors);
    CollectValid(fs);
    forall m | 0 <= m < i ensures !Names(fs[m], fs[j].key) {
    }
    CollectOrder(fs, i, j);
  }

  /**
    * The entry of a key is the shallow merge of its records' parses in order: a
    * field is present iff some record of the key carries it, and its value is the
    * one of the last record that carries it.
    */
  lemma ResultMerged(c: ButtonCodes, sensors: seq<RawSensor>, k: string, fld: Field, i: nat)
    requires c.Valid() && i < |sensors|
    requires IdentRawSensor(sensors[i]) != Unknown && IdentRawSensor(sensors[i]).key == k
    requires fld in Parse(c, IdentRawSensor(sensors[i]).parser, sensors[i])
    requires forall j :: i < j < |sensors| && IdentRawSensor(sensors[j]) != Unknown && IdentRawSensor(sensors[j]).key == k
                         ==> fld !in Parse(c, IdentRawSensor(sensors[j]).parser, sensors[j])
    ensures var d := Collect(Facets(c, sensors));
            k in d.items && fld in d.items[k]
            && d.items[k][fld] == Parse(c, IdentRawSensor(sensors[i]).parser, sensors[i])[fld]
  {
    var fs := Facets(c, sensors);
    assert AllMerge(fs, k);
    forall j | i < j < |fs| && Names(fs[j], k) ensures fld !in fs[j].record {
    }
    LastWithIsLast(fs, k, fld, i);
    CollectMerged(fs, k, fld);
  }

  /** A field that no record of the key carries is absent from its entry. */
  lemma ResultFieldAbsent(c: ButtonCodes, sensors: seq<RawSensor>, k: string, fld: Field)
    requires c.Valid()
    requires forall j :: 0 <= j < |sensors| && IdentRawSensor(sensors[j]) != Unknown && IdentRawSensor(sensors[j]).key == k
                         ==> fld !in Parse(c, IdentRawSensor(sensors[j]).parser, sensors[j])
    ensures var d := Collect(Facets(c, sensors));
            k in d.items ==> fld !in d.items[k]
  {
    var fs := Facets(c, sensors);
    assert AllMerge(fs, k);
    forall j | 0 <= j < |fs| && Names(fs[j], k) ensures fld !in fs[j].record {
    }
    LastWithNone(fs, k, fld);
    CollectMerged(fs, k, fld);
  }

  /** The facets of two runs of records are the facets of each, one after the other. */
  lemma FacetsAppend(c: ButtonCodes, s: seq<RawSensor>, t: seq<RawSensor>)
    requires c.Valid()
    ensures Facets(c, s + t) == Facets(c, s) + Facets(c, t)
  {
    var u := s + t;
    assert forall i :: 0 <= i < |t| ==> u[|s| + i] == t[i];
  }

  /**
    * Two records of a motion sensor with different types can arrive in either
    * order, wherever they sit among the other records.
    */
  lemma SmlFacetOrderIrrelevant(c: ButtonCodes, sensors: seq<RawSensor>, a: RawSensor, b: RawSensor, rest: seq<RawSensor>)
    requires c.Valid()
    requires IdentRawSensor(a) == IdentRawSensor(b) && IdentRawSensor(a).Known? && IdentRawSensor(a).parser == ParseSml
    requires a.sensorType != b.sensorType
    ensures Collect(Facets(c, sensors + [a, b] + rest)) == Collect(Facets(c, sensors + [b, a] + rest))
  {
    var k := IdentRawSensor(a).key;
    var ab := Facets(c, sensors) + [Merge(k, Sml(a)), Merge(k, Sml(b))];
    var ba := Facets(c, sensors) + [Merge(k, Sml(b)), Merge(k, Sml(a))];
    assert ToFacet(c, a) == Merge(k, Sml(a)) && ToFacet(c, b) == Merge(k, Sml(b));
    assert Facets(c, [a, b]) == [Merge(k, Sml(a)), Merge(k, Sml(b))];
    assert Facets(c, [b, a]) == [Merge(k, Sml(b)), Merge(k, Sml(a))];
    FacetsAppend(c, sensors, [a, b]);
    FacetsAppend(c, sensors + [a, b], rest);
    FacetsAppend(c, sensors, [b, a]);
    FacetsAppend(c, sensors + [b, a], rest);
    SmlFacetsDisjoint(a, b);
    SwapDisjointMerges(Facets(c, sensors), k, Sml(a), Sml(b));
    CollectSameTail(ab, ba, Facets(c, rest));
  }

}
