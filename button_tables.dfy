/**
  * The integer-to-tag tables for switch and dial events, and the decimal
  * decoding of dimmer-switch events. The Hue Tap and dimmer tables of
  * `hue_api_response.py` are keyed by aiohue constants whose values this model
  * does not see; they are a `ButtonCodes` parameter whose codes are distinct.
  */
module ButtonTables {
  import opened PyBase

  /** The Friends-of-Hue switch table (identical in every revision that has one). */
  const FOH_BUTTONS: map<int, string> := map[
    16 := "left_upper_press",
    20 := "left_upper_release",
    17 := "left_lower_press",
    21 := "left_lower_release",
    18 := "right_lower_press",
    22 := "right_lower_release",
    19 := "right_upper_press",
    23 := "right_upper_release",
    100 := "double_upper_press",
    101 := "double_upper_release",
    98 := "double_lower_press",
    99 := "double_lower_release"]

  /** The Hue Tap table with its literal codes, as the older revisions write it. */
  const TAP_BUTTONS: map<int, string> := map[34 := "1_click", 16 := "2_click", 17 := "3_click", 18 := "4_click"]

  /** The Lutron Aurora switch table. */
  const Z3_BUTTON: map<int, string> := map[
    1000 := "initial_press", 1001 := "repeat", 1002 := "short_release", 1003 := "long_release"]

  /** The Lutron Aurora dial table. */
  const Z3_DIAL: map<int, string> := map[1 := "begin", 2 := "end"]

  /** `responsecodes`: the suffix chosen by the last decimal digit of a dimmer event. */
  const RESPONSE_CODES: map<char, string> := map['0' := "_click", '1' := "_hold", '2' := "_click_up", '3' := "_hold_up"]

  /** `table.get(code, default)` where the code read from the bridge may be `None`. */
  function GetOr(table: map<int, string>, code: Option<int>, default: Value): (v: Value)
    ensures code.Some? && code.value in table ==> v == VStr(table[code.value])
    ensures code.None? || code.value !in table ==> v == default
  {
    if code.Some? && code.value in table then VStr(table[code.value]) else default
  }

  /** `press = str(event); str(press)[0] + responsecodes[press[-1]]`: KeyError for a last digit above 3. */
  function DecodeDimmer(event: int): (r: Result<string>)
  {
    var press := Str(event);
    var last := press[|press| - 1];
    if last in RESPONSE_CODES then Ok([press[0]] + RESPONSE_CODES[last]) else Raises(KeyError)
  }

  /** A tag such as `"3_hold"`: a button number and a suffix. */
  function ButtonTag(button: nat, suffix: string): string
    requires button < 10
  {
    [DigitChar(button)] + suffix
  }

  /** The suffix for each last digit that the dimmer decoding accepts. */
  function Suffix(d: nat): string
    requires d < 4
  {
    ["_click", "_hold", "_click_up", "_hold_up"][d]
  }

  /**
    * The dimmer decoding: a positive event is its leading digit followed by the
    * suffix of its last digit; a last digit of 4 to 9 raises.
    */
  lemma DecodeDimmerPositive(event: int)
    requires event > 0
    ensures DecodeDimmer(event).Ok? <==> event % 10 < 4
    ensures event % 10 < 4 ==> DecodeDimmer(event).value == ButtonTag(LeadingDigit(event), Suffix(event % 10))
  {
    StrEnds(event);
  }

  /** A negative event keeps its sign as the "button": `str(-1002)[0]` is `"-"`. */
  lemma DecodeDimmerNegative(event: int)
    requires event < 0
    ensures DecodeDimmer(event).Ok? <==> (-event) % 10 < 4
    ensures (-event) % 10 < 4 ==> DecodeDimmer(event).value == "-" + Suffix((-event) % 10)
  {
    StrEnds(event);
  }

  /** A four-digit event of the dimmer switch names its button by the thousands digit. */
  lemma DecodeDimmerFourDigits(event: int)
    requires 1000 <= event < 10000 && event % 10 < 4
    ensures DecodeDimmer(event) == Ok(ButtonTag(event / 1000, Suffix(event % 10)))
  {
    DecodeDimmerPositive(event);
    FourDigitsLead(event);
  }

  lemma DecodeDimmerExamples()
    ensures DecodeDimmer(4002) == Ok("4_click_up")
    ensures DecodeDimmer(1002) == Ok("1_click_up")
    ensures DecodeDimmer(2001) == Ok("2_hold")
    ensures DecodeDimmer(1004).Raises?
  {
    DecodeDimmerFourDigits(4002);
    assert ButtonTag(4, Suffix(2)) == "4_click_up";
    DecodeDimmerFourDigits(1002);
    assert ButtonTag(1, Suffix(2)) == "1_click_up";
    DecodeDimmerFourDigits(2001);
    assert ButtonTag(2, Suffix(1)) == "2_hold";
    DecodeDimmerPositive(1004);
  }

  /**
    * `if event: button = str(event)[0] + responsecodes[str(event)[-1]]`, the
    * button otherwise being `default`: a missing or zero event is not decoded.
    */
  function DimmerButton(event: Option<int>, default: Value): (r: Result<Value>)
  {
    if event.Some? && event.value != 0 then
      var tag :- DecodeDimmer(event.value);
      Ok(VStr(tag))
    else Ok(default)
  }

  /**
    * A missing or zero event gives the default; a positive one its leading digit
    * and the suffix of its last digit, and raises iff the last digit is 4 to 9.
    */
  lemma DimmerButtonSpec(event: Option<int>, default: Value)
    ensures event.None? || event.value == 0 ==> DimmerButton(event, default) == Ok(default)
    ensures event.Some? && event.value > 0 ==>
              (DimmerButton(event, default).Ok? <==> event.value % 10 < 4)
    ensures event.Some? && event.value > 0 && event.value % 10 < 4 ==>
              DimmerButton(event, default) == Ok(VStr(ButtonTag(LeadingDigit(event.value), Suffix(event.value % 10))))
  {
    if event.Some? && event.value > 0 {
      DecodeDimmerPositive(event.value);
    }
  }

  /** `default if code is None else table[code]`: an unknown code raises KeyError. */
  function IndexOr(table: map<int, string>, code: Option<int>, default: Value): (r: Result<Value>)
    ensures r.Raises? <==> code.Some? && code.value !in table
    ensures code.None? ==> r == Ok(default)
    ensures code.Some? && code.value in table ==> r == Ok(VStr(table[code.value]))
    ensures r.Raises? ==> r.error == KeyError
  {
    if code.None? then Ok(default)
    else if code.value in table then Ok(VStr(table[code.value]))
    else Raises(KeyError)
  }

  /** Every Friends-of-Hue code has its own tag, so the tag names the event. */
  lemma FohTagsDistinct(a: int, b: int)
    requires a in FOH_BUTTONS && b in FOH_BUTTONS && FOH_BUTTONS[a] == FOH_BUTTONS[b]
    ensures a == b
  {
  }

  /** The literal tap table sends code `c` of the tap buttons 34, 16, 17, 18 to `"n_click"`. */
  lemma TapButtonsNumbered()
    ensures TAP_BUTTONS.Keys == {34, 16, 17, 18}
    ensures TAP_BUTTONS[34] == ButtonTag(1, "_click") && TAP_BUTTONS[16] == ButtonTag(2, "_click")
    ensures TAP_BUTTONS[17] == ButtonTag(3, "_click") && TAP_BUTTONS[18] == ButtonTag(4, "_click")
  {
  }

  // ---------------------------------------------------------------------------
  // The aiohue-keyed tables of hue_api_response.py

  /**
    * The aiohue constants: `tap[n]` is `ZGP_SWITCH_BUTTON_{n+1}` and the other
    * four hold `ZLL_SWITCH_BUTTON_{n+1}_...` for each event kind.
    */
  datatype ButtonCodes = ButtonCodes(
    tap: seq<int>,
    initialPress: seq<int>,
    hold: seq<int>,
    shortReleased: seq<int>,
    longReleased: seq<int>)
  {
    /** The sixteen dimmer codes, kind by kind, in the order `RWL_BUTTONS` lists them. */
    function Zll(): seq<int> {
      initialPress + hold + shortReleased + longReleased
    }

    /** Four codes of each kind; the tap codes are distinct and so are the sixteen dimmer codes. */
    predicate Valid() {
      && |tap| == 4 && |initialPress| == 4 && |hold| == 4 && |shortReleased| == 4 && |longReleased| == 4
      && (forall i, j :: 0 <= i < j < 4 ==> tap[i] != tap[j])
      && (forall i, j :: 0 <= i < j < 16 ==> Zll()[i] != Zll()[j])
    }
  }

  /** `TAP_BUTTONS` keyed by the aiohue tap constants. */
  function TapButtons(c: ButtonCodes): map<int, string>
    requires |c.tap| == 4
  {
    map[c.tap[0] := "1_click", c.tap[1] := "2_click", c.tap[2] := "3_click", c.tap[3] := "4_click"]
  }

  /** The dict literal `{codes[0]: tags[0], codes[1]: tags[1], ...}`: a later entry replaces an earlier one with the same code. */
  function Table(codes: seq<int>, tags: seq<string>): map<int, string>
    requires |codes| == |tags|
    decreases |codes|
  {
    if codes == [] then map[]
    else Table(codes[..|codes| - 1], tags[..|tags| - 1])[codes[|codes| - 1] := tags[|tags| - 1]]
  }

  /** A literal's keys are its codes. */
  lemma {:induction false} TableDomain(codes: seq<int>, tags: seq<string>, code: int)
    requires |codes| == |tags|
    ensures code in Table(codes, tags) <==> code in codes
    decreases |codes|
  {
    if codes != [] {
      var n := |codes| - 1;
      TableDomain(codes[..n], tags[..n], code);
      assert codes == codes[..n] + [codes[n]];
    }
  }

  /** With distinct codes, the m-th code reads the m-th tag. */
  lemma {:induction false} TableLookup(codes: seq<int>, tags: seq<string>, m: nat)
    requires |codes| == |tags| && m < |codes|
    requires forall i, j :: 0 <= i < j < |codes| ==> codes[i] != codes[j]
    ensures codes[m] in Table(codes, tags) && Table(codes, tags)[codes[m]] == tags[m]
    decreases |codes|
  {
    var n := |codes| - 1;
    if m < n {
      TableLookup(codes[..n], tags[..n], m);
      assert codes[m] != codes[n];
    }
  }

  /** The tags of `RWL_BUTTONS` as written, in the order of `Zll()`: every initial press reads `"1_click"`. */
  const RWL_TAGS_AS_WRITTEN: seq<string> := [
    "1_click", "1_click", "1_click", "1_click",
    "1_hold", "2_hold", "3_hold", "4_hold",
    "1_click_up", "2_click_up", "3_click_up", "4_click_up",
    "1_hold_up", "2_hold_up", "3_hold_up", "4_hold_up"]

  /** The tags of `RWL_BUTTONS` as its pattern intends: the initial press of button n reads `"n_click"`. */
  const RWL_TAGS: seq<string> := [
    "1_click", "2_click", "3_click", "4_click",
    "1_hold", "2_hold", "3_hold", "4_hold",
    "1_click_up", "2_click_up", "3_click_up", "4_click_up",
    "1_hold_up", "2_hold_up", "3_hold_up", "4_hold_up"]

  /** The intended tags follow the pattern `"n_" + kind` for button n. */
  lemma RwlTagsNamed(n: nat)
    requires n < 4
    ensures RWL_TAGS[n] == ButtonTag(n + 1, "_click") && RWL_TAGS[4 + n] == ButtonTag(n + 1, "_hold")
    ensures RWL_TAGS[8 + n] == ButtonTag(n + 1, "_click_up") && RWL_TAGS[12 + n] == ButtonTag(n + 1, "_hold_up")
    ensures RWL_TAGS_AS_WRITTEN[4 + n] == RWL_TAGS[4 + n] && RWL_TAGS_AS_WRITTEN[8 + n] == RWL_TAGS[8 + n]
    ensures RWL_TAGS_AS_WRITTEN[12 + n] == RWL_TAGS[12 + n]
  {
    if n == 0 {
    } else if n == 1 {
    } else if n == 2 {
    } else {
    }
  }

  /** `RWL_BUTTONS` as written. */
  function RwlButtonsAsWritten(c: ButtonCodes): map<int, string>
    requires c.Valid()
  {
    Table(c.Zll(), RWL_TAGS_AS_WRITTEN)
  }

  /** `RWL_BUTTONS` as intended. */
  function RwlButtons(c: ButtonCodes): map<int, string>
    requires c.Valid()
  {
    Table(c.Zll(), RWL_TAGS)
  }

  /** Tap button n (counting from 1) reads `"n_click"`, and no other code is in the table. */
  lemma TapButtonsSpec(c: ButtonCodes, n: nat)
    requires c.Valid() && n < 4
    ensures TapButtons(c).Keys == {c.tap[0], c.tap[1], c.tap[2], c.tap[3]}
    ensures TapButtons(c)[c.tap[n]] == ButtonTag(n + 1, "_click")
  {
  }

  /** `RWL_BUTTONS` as written holds the sixteen dimmer codes and no other. */
  lemma RwlAsWrittenDomain(c: ButtonCodes, code: int)
    requires c.Valid()
    ensures code in RwlButtonsAsWritten(c) <==> code in c.Zll()
  {
    TableDomain(c.Zll(), RWL_TAGS_AS_WRITTEN, code);
  }

  /** Button n's initial press reads `"n_click"` and its hold `"n_hold"`. */
  lemma RwlButtonsPressHold(c: ButtonCodes, n: nat)
    requires c.Valid() && n < 4
    ensures c.initialPress[n] in RwlButtons(c) && RwlButtons(c)[c.initialPress[n]] == ButtonTag(n + 1, "_click")
    ensures c.hold[n] in RwlButtons(c) && RwlButtons(c)[c.hold[n]] == ButtonTag(n + 1, "_hold")
  {
    TableLookup(c.Zll(), RWL_TAGS, n);
    TableLookup(c.Zll(), RWL_TAGS, 4 + n);
    RwlTagsNamed(n);
    assert c.Zll()[n] == c.initialPress[n] && c.Zll()[4 + n] == c.hold[n];
  }

  /**
    * In `RWL_BUTTONS` as written, button n's hold reads `"n_hold"`, its short
    * release `"n_click_up"` and its long release `"n_hold_up"`.
    */
  lemma RwlAsWrittenHoldReleases(c: ButtonCodes, n: nat)
    requires c.Valid() && n < 4
    ensures c.hold[n] in RwlButtonsAsWritten(c) && RwlButtonsAsWritten(c)[c.hold[n]] == ButtonTag(n + 1, "_hold")
    ensures c.shortReleased[n] in RwlButtonsAsWritten(c) && RwlButtonsAsWritten(c)[c.shortReleased[n]] == ButtonTag(n + 1, "_click_up")
    ensures c.longReleased[n] in RwlButtonsAsWritten(c) && RwlButtonsAsWritten(c)[c.longReleased[n]] == ButtonTag(n + 1, "_hold_up")
  {
    TableLookup(c.Zll(), RWL_TAGS_AS_WRITTEN, 4 + n);
    TableLookup(c.Zll(), RWL_TAGS_AS_WRITTEN, 8 + n);
    TableLookup(c.Zll(), RWL_TAGS_AS_WRITTEN, 12 + n);
    RwlTagsNamed(n);
    assert c.Zll()[4 + n] == c.hold[n] && c.Zll()[8 + n] == c.shortReleased[n] && c.Zll()[12 + n] == c.longReleased[n];
  }

  /** As written, the initial press of every button reads `"1_click"`: button 3's press is not told from button 1's. */
  lemma RwlInitialPressCollapses(c: ButtonCodes, n: nat)
    requires c.Valid() && n < 4
    ensures c.initialPress[n] in RwlButtonsAsWritten(c) && c.initialPress[n] in RwlButtons(c)
    ensures RwlButtonsAsWritten(c)[c.initialPress[n]] == "1_click"
    ensures n > 0 ==> RwlButtonsAsWritten(c)[c.initialPress[n]] != RwlButtons(c)[c.initialPress[n]]
  {
    TableLookup(c.Zll(), RWL_TAGS_AS_WRITTEN, n);
    TableLookup(c.Zll(), RWL_TAGS, n);
    assert c.Zll()[n] == c.initialPress[n];
  }

  /** The written table and the intended one differ only on the initial presses of buttons 2 to 4. */
  lemma RwlTablesAgreeElsewhere(c: ButtonCodes, code: int)
    requires c.Valid()
    requires code !in c.initialPress[1..]
    ensures code in RwlButtonsAsWritten(c) <==> code in RwlButtons(c)
    ensures code in RwlButtons(c) ==> RwlButtonsAsWritten(c)[code] == RwlButtons(c)[code]
  {
    TableDomain(c.Zll(), RWL_TAGS_AS_WRITTEN, code);
    TableDomain(c.Zll(), RWL_TAGS, code);
    if code in c.Zll() {
      var m :| 0 <= m < 16 && c.Zll()[m] == code;
      TableLookup(c.Zll(), RWL_TAGS_AS_WRITTEN, m);
      TableLookup(c.Zll(), RWL_TAGS, m);
    }
  }
}
