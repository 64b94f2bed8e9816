/**
  * The small part of Python that the Hue sensor parsers lean on: the values a
  * parsed record holds, the two exceptions the parsers can raise, dictionary
  * look-ups and truthiness, clamped slicing, `str.split`, `" ".join`,
  * `list.insert` and `str(int)`.
  */
module PyBase {

  datatype Option<+T> = None | Some(value: T)

  /** The exceptions the modelled code can raise. */
  datatype PyError = KeyError | UnboundLocalError

  /** A computation that either returns a value or raises. */
  datatype Result<+T> = Ok(value: T) | Raises(error: PyError) {
    predicate IsFailure() { Raises? }
    function PropagateFailure<U>(): Result<U>
      requires Raises?
    {
      Raises(error)
    }
    function Extract(): T
      requires Ok?
    {
      value
    }
  }

  /**
    * A value stored in a parsed record. `VList` is a list of strings (only
    * `last_updated` holds one). `VHundredths(n)` stands for the float `n / 100.0`
    * and `VLux(level)` for `round(10 ** ((level - 1) / 10000), 2)`, which is left
    * uninterpreted.
    */
  datatype Value =
    | VNone
    | VBool(b: bool)
    | VInt(i: int)
    | VStr(s: string)
    | VList(items: seq<string>)
    | VHundredths(n: int)
    | VLux(level: int)

  /** The keys a parsed record can carry; each constructor is one key string of the source. */
  datatype Field =
    | Model            // "model"
    | Name             // "name"
    | State            // "state"
    | LastButtonEvent  // "last_button_event"
    | LastUpdated      // "last_updated"
    | Battery          // "battery"
    | On               // "on"
    | Reachable        // "reachable"
    | Sensitivity      // "sensitivity"
    | LightLevel       // "light_level"
    | Lx               // "lx"
    | Dark             // "dark"
    | Daylight         // "daylight"
    | ThresholdDark    // "threshold_dark"
    | ThresholdOffset  // "threshold_offset"
    | Temperature      // "temperature"
    | DialState        // "dial_state"
    | DialPosition     // "dial_position"
    | SoftwareUpdate   // "software_update"
    | Configured       // "configured"
    | SunriseOffset    // "sunrise_offset"
    | SunsetOffset     // "sunset_offset"
    | Type             // "type"
    | ModelId          // "modelid"
    | SwVersion        // "swversion"
    | Changed          // "changed"

  /** A parsed sensor record, a Python dict from attribute name to value. */
  type Record = map<Field, Value>

  /** `r[f]`: raises KeyError when the key is missing. */
  function Index(r: Record, f: Field): (v: Result<Value>)
    ensures v.Ok? <==> f in r
    ensures v.Raises? ==> v.error == KeyError
    ensures v.Ok? ==> v.value == r[f]
  {
    if f in r then Ok(r[f]) else Raises(KeyError)
  }

  /** `d.get(k)`, on a record or on a dict of records. */
  function Get<K, V>(m: map<K, V>, k: K): (v: Option<V>)
    ensures v.Some? <==> k in m
    ensures v.Some? ==> v.value == m[k]
  {
    if k in m then Some(m[k]) else None
  }

  /** Python truthiness of a stored value (a rounded lux reading is taken as non-zero). */
  predicate Truthy(v: Value) {
    match v
    case VNone => false
    case VBool(b) => b
    case VInt(i) => i != 0
    case VStr(s) => s != ""
    case VList(items) => items != []
    case VHundredths(n) => n != 0
    case VLux(_) => true
  }

  /** `not d` for a dict looked up with `.get`: None or the empty dict. */
  predicate Falsy(d: Option<Record>) {
    d.None? || d.value == map[]
  }

  /** A dict in insertion order: `keys` is the order in which `items` iterates. */
  datatype Dict = Dict(keys: seq<string>, items: map<string, Record>) {
    /** `keys` lists each key of `items` exactly once. */
    ghost predicate Valid() {
      items.Keys == Elements(keys) && Distinct(keys)
    }

    /** `d[k] = v`: a new key goes to the end of the order, an existing key keeps its place. */
    function Assign(k: string, v: Record): Dict {
      if k in items then Dict(keys, items[k := v]) else Dict(keys + [k], items[k := v])
    }

    /** Every listed key is stored, so iterating `items()` may index `items`. */
    predicate Listed() {
      forall i :: 0 <= i < |keys| ==> keys[i] in items
    }
  }

  /** A valid dict lists only stored keys. */
  lemma ValidIsListed(d: Dict)
    requires d.Valid()
    ensures d.Listed()
  {
    forall i | 0 <= i < |d.keys| ensures d.keys[i] in d.items {
      ValidListed(d, d.keys[i]);
    }
  }

  /** Assignment keeps every key listed exactly once. */
  lemma AssignValid(d: Dict, k: string, v: Record)
    requires d.Valid()
    ensures d.Assign(k, v).Valid()
    ensures d.Assign(k, v).items.Keys == d.items.Keys + {k}
  {
    if k !in d.items {
      assert (d.keys + [k])[..|d.keys|] == d.keys;
    }
  }

  /** The elements of `s`, collected from the end so that appending is one step. */
  ghost function Elements<T>(s: seq<T>): set<T>
    decreases |s|
  {
    if |s| == 0 then {} else Elements(s[..|s| - 1]) + {s[|s| - 1]}
  }

  /** No element occurs twice. */
  ghost predicate Distinct<T>(s: seq<T>)
    decreases |s|
  {
    |s| == 0 || (s[|s| - 1] !in Elements(s[..|s| - 1]) && Distinct(s[..|s| - 1]))
  }

  /** In a valid dict, a key is stored iff it is listed. */
  lemma ValidListed(d: Dict, k: string)
    requires d.Valid()
    ensures k in d.items <==> k in d.keys
  {
    ElementsIn(d.keys, k);
  }

  lemma {:induction false} ElementsIn<T>(s: seq<T>, x: T)
    ensures x in Elements(s) <==> x in s
    decreases |s|
  {
    if |s| > 0 {
      ElementsIn(s[..|s| - 1], x);
      assert s == s[..|s| - 1] + [s[|s| - 1]];
    }
  }

  const EmptyDict: Dict := Dict([], map[])

  // ---------------------------------------------------------------------------
  // Slicing

  /** Where a Python index `i` lands in a sequence of length `n`, clamped to `0..n`. */
  function Clamp(i: int, n: nat): (j: nat)
    ensures j <= n
    ensures 0 <= i <= n ==> j == i
    ensures i < 0 && -i <= n ==> j == n + i
  {
    if i < 0 then (if i + n < 0 then 0 else i + n) else if i > n then n else i
  }

  /** `s[start:stop]`, a missing bound being `None`. */
  function Slice<T>(s: seq<T>, start: Option<int>, stop: Option<int>): (r: seq<T>)
    ensures |r| <= |s|
  {
    var a := if start.Some? then Clamp(start.value, |s|) else 0;
    var b := if stop.Some? then Clamp(stop.value, |s|) else |s|;
    if a < b then s[a..b] else []
  }

  /** `s[:-n]` drops the last `n` elements, and leaves nothing of a shorter sequence. */
  lemma SliceDropLast<T>(s: seq<T>, n: int)
    requires n > 0
    ensures Slice(s, None, Some(-n)) == if |s| >= n then s[..|s| - n] else []
  {
  }

  /** `s[-n:]` keeps the last `n` elements, or all of a shorter sequence. */
  lemma SliceLast<T>(s: seq<T>, n: int)
    requires n > 0
    ensures Slice(s, Some(-n), None) == if |s| >= n then s[|s| - n..] else s
  {
  }

  /** `s[0:n]` keeps the first `n` elements, or all of a shorter sequence. */
  lemma SliceTake<T>(s: seq<T>, n: nat)
    ensures Slice(s, Some(0), Some(n)) == if |s| >= n then s[..n] else s
  {
  }

  /** `s[-a:-b]` for `a > b > 0`: the window that ends `b` before the end and is `a - b` long. */
  lemma SliceWindow<T>(s: seq<T>, a: int, b: int)
    requires a > b > 0
    ensures |s| >= a ==> Slice(s, Some(-a), Some(-b)) == s[|s| - a..|s| - b]
    ensures b <= |s| < a ==> Slice(s, Some(-a), Some(-b)) == s[..|s| - b]
    ensures |s| < b ==> Slice(s, Some(-a), Some(-b)) == []
  {
  }

  // ---------------------------------------------------------------------------
  // Lists and strings

  /** `xs.insert(i, x)`: a negative `i` counts from the end, and `i` is clamped to the list. */
  function Insert<T>(xs: seq<T>, i: int, x: T): (r: seq<T>)
    ensures |r| == |xs| + 1
    ensures multiset(r) == multiset(xs) + multiset{x}
  {
    var j := Clamp(i, |xs|);
    assert xs == xs[..j] + xs[j..];
    xs[..j] + [x] + xs[j..]
  }

  /** `list.insert(-1, x)` puts `x` just before the last element (or alone into an empty list). */
  lemma InsertBeforeLast<T>(xs: seq<T>, x: T)
    ensures xs == [] ==> Insert(xs, -1, x) == [x]
    ensures xs != [] ==> Insert(xs, -1, x) == xs[..|xs| - 1] + [x] + [xs[|xs| - 1]]
  {
    if xs != [] {
      assert xs[|xs| - 1..] == [xs[|xs| - 1]];
    }
  }

  /** `sep.join(parts)` */
  function Join(parts: seq<string>, sep: string): (s: string)
    decreases |parts|
  {
    if |parts| == 0 then ""
    else if |parts| == 1 then parts[0]
    else parts[0] + sep + Join(parts[1..], sep)
  }

  /** `s.split(sep)` for a one-character separator. */
  function Split(s: string, sep: char): (parts: seq<string>)
    ensures |parts| >= 1
    ensures forall i :: 0 <= i < |parts| ==> sep !in parts[i]
    decreases |s|
  {
    if s == [] then [""]
    else
      var rest := Split(s[1..], sep);
      if s[0] == sep then [""] + rest
      else [[s[0]] + rest[0]] + rest[1..]
  }

  /** Joining what `split` cut gives back the string. */
  lemma {:induction false} JoinSplit(s: string, sep: char)
    ensures Join(Split(s, sep), [sep]) == s
    decreases |s|
  {
    if s != [] {
      var rest := Split(s[1..], sep);
      JoinSplit(s[1..], sep);
      if s[0] == sep {
        assert Split(s, sep) == [""] + rest;
        assert Join(Split(s, sep), [sep]) == "" + [sep] + Join(rest, [sep]);
      } else {
        var parts := [[s[0]] + rest[0]] + rest[1..];
        assert Split(s, sep) == parts;
        if |rest| == 1 {
          assert Join(parts, [sep]) == [s[0]] + rest[0];
        } else {
          assert parts[1..] == rest[1..];
          assert Join(rest, [sep]) == rest[0] + [sep] + Join(rest[1..], [sep]);
          assert Join(parts, [sep]) == [s[0]] + rest[0] + [sep] + Join(rest[1..], [sep]);
        }
      }
    }
  }

  /** Splitting a joined list of separator-free pieces gives the pieces back. */
  lemma {:induction false} SplitJoin(parts: seq<string>, sep: char)
    requires |parts| >= 1
    requires forall i :: 0 <= i < |parts| ==> sep !in parts[i]
    ensures Split(Join(parts, [sep]), sep) == parts
    decreases |parts|, |parts[0]|
  {
    if parts[0] == [] {
      if |parts| > 1 {
        SplitJoin(parts[1..], sep);
        var s := Join(parts, [sep]);
        assert s == [sep] + Join(parts[1..], [sep]);
        assert s[1..] == Join(parts[1..], [sep]);
        assert parts == [""] + parts[1..];
      }
    } else {
      var c := parts[0][0];
      var shorter := [parts[0][1..]] + parts[1..];
      assert sep !in shorter[0];
      forall i | 0 <= i < |shorter| ensures sep !in shorter[i] {
        if i > 0 { assert shorter[i] == parts[i]; }
      }
      SplitJoin(shorter, sep);
      JoinFirstChar(parts, sep);
      assert parts[0] == [c] + parts[0][1..];
      assert parts == [[c] + shorter[0]] + shorter[1..];
    }
  }

  /** A join whose first piece is non-empty starts with that piece's first character. */
  lemma JoinFirstChar(parts: seq<string>, sep: char)
    requires |parts| >= 1 && parts[0] != []
    ensures var s := Join(parts, [sep]);
            s != [] && s[0] == parts[0][0] && s[1..] == Join([parts[0][1..]] + parts[1..], [sep])
  {
    var s := Join(parts, [sep]);
    var shorter := [parts[0][1..]] + parts[1..];
    if |parts| > 1 {
      assert shorter[1..] == parts[1..];
    }
  }

  /** The characters Python's `str.isspace` accepts. */
  predicate IsSpace(c: char) {
    || c == ' ' || '\t' <= c <= '\r' || '\U{1C}' <= c <= '\U{1F}' || c == '\U{85}' || c == '\U{A0}'
    || c == '\U{1680}' || '\U{2000}' <= c <= '\U{200A}' || c == '\U{2028}' || c == '\U{2029}'
    || c == '\U{202F}' || c == '\U{205F}' || c == '\U{3000}'
  }

  /** A word `str.split()` can produce: non-empty and free of white space. */
  predicate IsWord(w: string) {
    w != [] && forall j :: 0 <= j < |w| ==> !IsSpace(w[j])
  }

  /** `s.split()`: the maximal runs of non-space characters, in order. */
  function Words(s: string): (ws: seq<string>)
    ensures forall i :: 0 <= i < |ws| ==> IsWord(ws[i])
    ensures s != [] && !IsSpace(s[0]) ==> ws != [] && ws[0] != [] && ws[0][0] == s[0]
    decreases |s|
  {
    if s == [] then []
    else
      var rest := Words(s[1..]);
      if IsSpace(s[0]) then rest
      else if |s| > 1 && !IsSpace(s[1]) then [[s[0]] + rest[0]] + rest[1..]
      else [[s[0]]] + rest
  }

  /** A word followed by nothing or by white space splits off as one word. */
  lemma {:induction false} WordsOfWordThen(w: string, r: string)
    requires IsWord(w)
    requires r == [] || IsSpace(r[0])
    ensures Words(w + r) == [w] + Words(r)
    decreases |w|
  {
    var s := w + r;
    assert s[1..] == w[1..] + r;
    if |w| == 1 {
      assert s[1..] == r;
      assert w == [s[0]];
    } else {
      WordsOfWordThen(w[1..], r);
      assert s[1] == w[1];
      assert w == [w[0]] + w[1..];
    }
  }

  /** `" ".join` of words splits back into the same words. */
  lemma {:induction false} WordsOfJoin(ws: seq<string>)
    requires forall i :: 0 <= i < |ws| ==> IsWord(ws[i])
    ensures Words(Join(ws, " ")) == ws
    decreases |ws|
  {
    if |ws| == 1 {
      WordsOfWordThen(ws[0], "");
      assert ws[0] + "" == ws[0];
    } else if |ws| > 1 {
      var tail := Join(ws[1..], " ");
      WordsOfJoin(ws[1..]);
      WordsOfWordThen(ws[0], " " + tail);
      assert Join(ws, " ") == ws[0] + (" " + tail);
      assert (" " + tail)[1..] == tail;
      assert ws == [ws[0]] + ws[1..];
    }
  }

  // ---------------------------------------------------------------------------
  // Decimal strings

  function DigitChar(d: nat): (c: char)
    requires d < 10
  {
    "0123456789"[d]
  }

  /** The decimal digits of a natural number, without leading zeros. */
  function Digits(n: nat): (s: string)
    ensures |s| >= 1
    ensures s[|s| - 1] == DigitChar(n % 10)
    decreases n
  {
    if n < 10 then [DigitChar(n)] else Digits(n / 10) + [DigitChar(n % 10)]
  }

  /** `str(n)` for an int. */
  function Str(n: int): (s: string)
    ensures |s| >= 1
  {
    if n < 0 then "-" + Digits(-n) else Digits(n)
  }

  /** The leading decimal digit of a natural number. */
  function LeadingDigit(n: nat): (d: nat)
    ensures d < 10
    ensures n > 0 ==> d > 0
    decreases n
  {
    if n < 10 then n else LeadingDigit(n / 10)
  }

  /** `str(n)[0]` is the leading digit of a non-negative `n` and `-` otherwise; `str(n)[-1]` is its last digit. */
  lemma {:induction false} StrEnds(n: int)
    ensures Str(n)[0] == if n < 0 then '-' else DigitChar(LeadingDigit(n))
    ensures Str(n)[|Str(n)| - 1] == DigitChar((if n < 0 then -n else n) % 10)
  {
    if n >= 0 {
      DigitsFirst(n);
    }
  }

  lemma {:induction false} DigitsFirst(n: nat)
    ensures Digits(n)[0] == DigitChar(LeadingDigit(n))
    decreases n
  {
    if n >= 10 {
      DigitsFirst(n / 10);
    }
  }

  /** A four-digit number leads with its thousands digit. */
  lemma FourDigitsLead(n: nat)
    requires 1000 <= n < 10000
    ensures LeadingDigit(n) == n / 1000
  {
    assert LeadingDigit(n) == LeadingDigit(n / 10) == LeadingDigit(n / 100) == LeadingDigit(n / 1000);
  }
}
