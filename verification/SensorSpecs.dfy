/** The specification object of a sensor definition: known keys are typed, all others pass through. Printed and parsed
    as JSON values; numbers are those of a float64. */
module SensorSpecs {
  import opened Options

  datatype Json =
    | Null
    | Bool(b: bool)
    | Num(r: real)
    | Str(s: string)
    | Arr(items: seq<Json>)
    | Obj(fields: map<string, Json>)

  // ---------- integers on the wire ----------

  const TWO_53 := 9007199254740992
  const TWO_63 := 9223372036854775808

  type int64 = n: int | -TWO_63 <= n < TWO_63

  // The distance between float64 values around n.
  function Ulp(n: nat): (u: nat)
    ensures 1 <= u
  {
    if n < TWO_53 then 1 else 2 * Ulp(n / 2)
  }

  // The multiple of u nearest to size, ties to the even one.
  function Nearest(size: nat, u: nat): int
    requires 1 <= u
  {
    var below := size / u;
    var left := size % u;
    if 2 * left < u || (2 * left == u && below % 2 == 0) then below * u else (below + 1) * u
  }

  // The float64 nearest to n.
  function FloatOf(n: int): int {
    if n < 0 then -Nearest(-n, Ulp(-n)) else Nearest(n, Ulp(n))
  }

  lemma SmallIntegersAreExact(n: int)
    requires -TWO_53 <= n <= TWO_53
    ensures FloatOf(n) == n
  {
    if n == TWO_53 || n == -TWO_53 {
      assert Ulp(TWO_53) == 2 * Ulp(TWO_53 / 2);
    }
  }

  lemma NextIntegerIsNot()
    ensures FloatOf(TWO_53 + 1) == TWO_53
  {
    assert Ulp(TWO_53 + 1) == 2 * Ulp((TWO_53 + 1) / 2);
  }

  /** The distance is the least power of two that leaves at most 53 bits above it. */
  lemma {:induction false} UlpFits(n: nat)
    ensures n < TWO_53 * Ulp(n) && (Ulp(n) > 1 ==> TWO_53 * Ulp(n) <= 2 * n)
  {
    if n >= TWO_53 {
      UlpFits(n / 2);
    }
  }

  lemma NearestIs(size: nat, u: nat) returns (k: nat)
    requires 1 <= u
    ensures Nearest(size, u) == k * u
    ensures 2 * (k * u - size) <= u && 2 * (size - k * u) <= u
  {
    var below, left := size / u, size % u;
    assert size == below * u + left;
    assert (below + 1) * u == below * u + u;
    k := if 2 * left < u || (2 * left == u && below % 2 == 0) then below else below + 1;
  }

  /** An integer on the wire becomes a multiple of that distance no further away than half of it. */
  lemma FloatOfIsNearest(n: int) returns (k: nat)
    ensures var size: nat := if n < 0 then -n else n;
            var u := Ulp(size);
            && FloatOf(n) == (if n < 0 then -(k * u) else k * u)
            && 2 * (k * u - size) <= u && 2 * (size - k * u) <= u
  {
    hide Ulp, Nearest;
    var size: nat := if n < 0 then -n else n;
    k := NearestIs(size, Ulp(size));
  }

  // The conversion to int keeps integral values that fit; others do not survive the comparison.
  function ToInt(j: Json): Option<int64> {
    if j.Num? && j.r == j.r.Floor as real && -TWO_63 <= j.r.Floor < TWO_63 then Some(j.r.Floor) else None
  }

  // ---------- the typed objects ----------

  datatype Thresholds = Thresholds(min: Option<real>, max: Option<real>, extra: map<string, Json>)

  datatype Specs = Specs(
    min: Option<real>,
    max: Option<real>,
    step: Option<real>,
    values: Option<seq<string>>,
    maxLen: Option<int64>,
    thresholds: Option<Thresholds>,
    extra: map<string, Json>)

  const THRESHOLD_KEYS: set<string> := {"min", "max"}
  const KEYS: set<string> := {"min", "max", "step", "values", "maxLen", "thresholds"}

  function Numeric(v: Option<real>): Option<Json> {
    if v.Some? then Some(Num(v.value)) else None
  }

  function Strings(values: seq<string>): (items: seq<Json>)
    ensures |items| == |values| && forall i :: 0 <= i < |values| ==> items[i] == Str(values[i])
  {
    seq(|values|, i requires 0 <= i < |values| => Str(values[i]))
  }

  // What an object says under a key.
  function At(fields: map<string, Json>, key: string): Option<Json> {
    if key in fields then Some(fields[key]) else None
  }

  // ---------- printing ----------

  // The value a threshold object gives to one of its known keys.
  function ThresholdValue(t: Thresholds, key: string): Option<Json> {
    if key == "min" then Numeric(t.min) else if key == "max" then Numeric(t.max) else None
  }

  function SpecsValue(s: Specs, key: string): Option<Json> {
    if key == "min" then Numeric(s.min)
    else if key == "max" then Numeric(s.max)
    else if key == "step" then Numeric(s.step)
    else if key == "values" then
      (if s.values.Some? && s.values.value != [] then Some(Arr(Strings(s.values.value))) else None)
    else if key == "maxLen" then (if s.maxLen.Some? then Some(Num(FloatOf(s.maxLen.value) as real)) else None)
    else if key == "thresholds" then (if s.thresholds.Some? then Some(PrintThresholds(s.thresholds.value)) else None)
    else None
  }

  // Extra keys are written last and win.
  function PrintThresholds(t: Thresholds): (j: Json)
    ensures j.Obj?
  {
    Obj((map k | k in THRESHOLD_KEYS && ThresholdValue(t, k).Some? :: ThresholdValue(t, k).value) + t.extra)
  }

  // What is written for some of the known keys.
  function Known(s: Specs, keys: set<string>): map<string, Json> {
    map k | k in keys && SpecsValue(s, k).Some? :: SpecsValue(s, k).value
  }

  function Print(s: Specs): (j: Json)
    ensures j.Obj?
  {
    Obj(Known(s, KEYS) + s.extra)
  }

  // ---------- parsing ----------

  function NumberOf(j: Option<Json>): Option<real> {
    if j.Some? && j.value.Num? then Some(j.value.r) else None
  }

  predicate NumberOrAbsent(j: Option<Json>) {
    j.Some? ==> j.value.Num?
  }

  predicate AllStrings(items: seq<Json>) {
    forall i :: 0 <= i < |items| ==> items[i].Str?
  }

  function Texts(items: seq<Json>): (texts: seq<string>)
    requires AllStrings(items)
    ensures |texts| == |items| && forall i :: 0 <= i < |items| ==> texts[i] == items[i].s
  {
    seq(|items|, i requires 0 <= i < |items| => items[i].s)
  }

  predicate StringsOrAbsent(j: Option<Json>) {
    j.Some? ==> j.value.Arr? && AllStrings(j.value.items)
  }

  // An empty array leaves the values unset.
  function TextsOf(j: Option<Json>): Option<seq<string>>
    requires StringsOrAbsent(j)
  {
    if j.Some? && j.value.items != [] then Some(Texts(j.value.items)) else None
  }

  // A null is an object without keys.
  function FieldsOf(j: Json): Option<map<string, Json>> {
    match j case Obj(fields) => Some(fields) case Null => Some(map[]) case _ => None
  }

  function ParseThresholds(j: Json): Option<Thresholds> {
    var fields := FieldsOf(j);
    if fields.None? then None
    else
      var f := fields.value;
      if NumberOrAbsent(At(f, "min")) && NumberOrAbsent(At(f, "max")) then
        Some(Thresholds(NumberOf(At(f, "min")), NumberOf(At(f, "max")), f - THRESHOLD_KEYS))
      else None
  }

  // The value of a known key has its type.
  predicate Typed(key: string, v: Json) {
    if key == "min" || key == "max" || key == "step" then v.Num?
    else if key == "values" then v.Arr? && AllStrings(v.items)
    else if key == "maxLen" then ToInt(v).Some?
    else if key == "thresholds" then ParseThresholds(v).Some?
    else true
  }

  function Built(f: map<string, Json>): Specs
    requires forall k :: k in f ==> Typed(k, f[k])
  {
    assert "values" in f ==> Typed("values", f["values"]);
    Specs(NumberOf(At(f, "min")), NumberOf(At(f, "max")), NumberOf(At(f, "step")),
          TextsOf(At(f, "values")),
          if "maxLen" in f then ToInt(f["maxLen"]) else None,
          if "thresholds" in f then ParseThresholds(f["thresholds"]) else None,
          f - KEYS)
  }

  function Parse(j: Json): Option<Specs> {
    var fields := FieldsOf(j);
    if fields.None? then None
    else if forall k :: k in fields.value ==> Typed(k, fields.value[k]) then Some(Built(fields.value))
    else None
  }

  // ---------- round trips ----------

  lemma PrintedThresholdAt(t: Thresholds, k: string)
    ensures At(PrintThresholds(t).fields, k) == if k in t.extra then Some(t.extra[k]) else ThresholdValue(t, k)
  {
  }

  lemma PrintedAt(s: Specs, k: string)
    ensures At(Print(s).fields, k) == if k in s.extra then Some(s.extra[k]) else SpecsValue(s, k)
  {
    hide PrintThresholds;
  }

  /** What is written under each known key: its value if it is set, for the list only if it is not empty, and in its place what
      an extra key of that name says. */
  lemma WrittenKeys(s: Specs)
    ensures var f, e := Print(s).fields, s.extra;
            && (At(f, "min") == if "min" in e then Some(e["min"])
                                else if s.min.Some? then Some(Num(s.min.value)) else None)
            && (At(f, "max") == if "max" in e then Some(e["max"])
                                else if s.max.Some? then Some(Num(s.max.value)) else None)
            && (At(f, "step") == if "step" in e then Some(e["step"])
                                 else if s.step.Some? then Some(Num(s.step.value)) else None)
            && (At(f, "maxLen") == if "maxLen" in e then Some(e["maxLen"])
                                   else if s.maxLen.Some? then Some(Num(FloatOf(s.maxLen.value) as real)) else None)
            && ("values" !in e ==>
                  && ("values" in f <==> s.values.Some? && s.values.value != [])
                  && ("values" in f ==> f["values"].Arr? && AllStrings(f["values"].items)
                                        && Texts(f["values"].items) == s.values.value))
            && ("values" in e ==> At(f, "values") == Some(e["values"]))
            && ("thresholds" in f <==> "thresholds" in e || s.thresholds.Some?)
            && ("thresholds" in e ==> At(f, "thresholds") == Some(e["thresholds"]))
  {
    hide FloatOf, PrintThresholds, Print;
    PrintedAt(s, "min");
    PrintedAt(s, "max");
    PrintedAt(s, "step");
    PrintedAt(s, "values");
    PrintedAt(s, "maxLen");
    PrintedAt(s, "thresholds");
    if s.values.Some? {
      assert Texts(Strings(s.values.value)) == s.values.value;
    }
  }

  /** The same of thresholds, all of whose keys are numbers or extra. */
  lemma WrittenThresholds(t: Thresholds, k: string)
    ensures At(PrintThresholds(t).fields, k) ==
            if k in t.extra then Some(t.extra[k])
            else if k == "min" && t.min.Some? then Some(Num(t.min.value))
            else if k == "max" && t.max.Some? then Some(Num(t.max.value))
            else None
  {
    PrintedThresholdAt(t, k);
  }

  predicate ThresholdsRoundTrip(t: Thresholds) {
    t.extra.Keys !! THRESHOLD_KEYS
  }

  /** Thresholds survive printing and parsing exactly when their extra keys avoid the known ones. */
  lemma ThresholdsRoundTripIff(t: Thresholds)
    ensures ParseThresholds(PrintThresholds(t)) == Some(t) <==> ThresholdsRoundTrip(t)
  {
    var f := PrintThresholds(t).fields;
    PrintedThresholdAt(t, "min");
    PrintedThresholdAt(t, "max");
    if ThresholdsRoundTrip(t) {
      forall k ensures At(f - THRESHOLD_KEYS, k) == At(t.extra, k) {
        PrintedThresholdAt(t, k);
      }
      SameMap(f - THRESHOLD_KEYS, t.extra);
    }
  }

  lemma SameMap(a: map<string, Json>, b: map<string, Json>)
    requires forall k :: At(a, k) == At(b, k)
    ensures a == b
  {
    assert forall k :: k in a <==> At(a, k).Some?;
    assert forall k :: k in b <==> At(b, k).Some?;
    forall k | k in a ensures a[k] == b[k] {
      assert At(a, k) == At(b, k);
    }
  }

  predicate RoundTrips(s: Specs) {
    && s.extra.Keys !! KEYS
    && s.values != Some([])
    && (s.maxLen.Some? ==> FloatOf(s.maxLen.value) == s.maxLen.value)
    && (s.thresholds.Some? ==> ThresholdsRoundTrip(s.thresholds.value))
  }

  lemma PrintedIsTyped(s: Specs, k: string)
    requires RoundTrips(s) && k in Print(s).fields
    ensures Typed(k, Print(s).fields[k])
  {
    hide FloatOf, PrintThresholds, ParseThresholds, ThresholdsRoundTrip;
    PrintedAt(s, k);
    if k == "thresholds" && s.thresholds.Some? {
      ThresholdsRoundTripIff(s.thresholds.value);
    }
  }

  lemma PrintedExtra(s: Specs)
    requires s.extra.Keys !! KEYS
    ensures Print(s).fields - KEYS == s.extra
  {
    var f := Print(s).fields;
    forall k ensures At(f - KEYS, k) == At(s.extra, k) {
      PrintedAt(s, k);
    }
    SameMap(f - KEYS, s.extra);
  }

  lemma ForwardTrip(s: Specs)
    requires RoundTrips(s)
    ensures Parse(Print(s)) == Some(s)
  {
    hide FloatOf, PrintThresholds, ParseThresholds, ThresholdsRoundTrip, Print, Typed;
    var f := Print(s).fields;
    forall k | k in f ensures Typed(k, f[k]) {
      PrintedIsTyped(s, k);
    }
    PrintedAt(s, "min");
    PrintedAt(s, "max");
    PrintedAt(s, "step");
    PrintedAt(s, "values");
    PrintedAt(s, "maxLen");
    PrintedAt(s, "thresholds");
    PrintedExtra(s);
    if s.thresholds.Some? {
      ThresholdsRoundTripIff(s.thresholds.value);
    }
    if s.values.Some? {
      assert Texts(Strings(s.values.value)) == s.values.value;
    }
  }

  lemma BackwardTrip(s: Specs)
    requires Parse(Print(s)) == Some(s)
    ensures RoundTrips(s)
  {
    hide FloatOf, PrintThresholds, ParseThresholds, ThresholdsRoundTrip, Print, Typed;
    var f := Print(s).fields;
    assert s.extra == f - KEYS;
    PrintedAt(s, "values");
    PrintedAt(s, "maxLen");
    PrintedAt(s, "thresholds");
    if s.thresholds.Some? {
      ThresholdsRoundTripIff(s.thresholds.value);
    }
  }

  /** Specs survive printing and parsing exactly when their extra keys avoid the known ones (at both levels), their
      values are absent or not empty, and their maximal length is a float64 value. */
  lemma SpecsRoundTripIff(s: Specs)
    ensures Parse(Print(s)) == Some(s) <==> RoundTrips(s)
  {
    hide *;
    if RoundTrips(s) {
      ForwardTrip(s);
    }
    if Parse(Print(s)) == Some(s) {
      BackwardTrip(s);
    }
  }

  // A value a JSON reader has produced: its integral numbers are float64 values.
  predicate Decoded(j: Json) {
    j.Obj? ==> forall k :: k in j.fields && ToInt(j.fields[k]).Some? ==>
                 FloatOf(j.fields[k].r.Floor) == j.fields[k].r.Floor
  }

  lemma ParsedThresholds(j: Json)
    requires ParseThresholds(j).Some?
    ensures ThresholdsRoundTrip(ParseThresholds(j).value)
  {
  }

  /** Whatever is accepted is stable: printing the parsed specs and parsing them again gives the same specs, unknown keys
      and nested thresholds included. */
  lemma AcceptedSpecsAreStable(j: Json)
    requires Decoded(j) && Parse(j).Some?
    ensures Parse(Print(Parse(j).value)) == Parse(j)
  {
    hide FloatOf, ParseThresholds, PrintThresholds, ThresholdsRoundTrip, Print;
    var s := Parse(j).value;
    if s.thresholds.Some? {
      ParsedThresholds(j.fields["thresholds"]);
    }
    assert RoundTrips(s);
    ForwardTrip(s);
  }

  /** Parsing never drops an unknown key, never invents one, and printing keeps what it says. */
  lemma UnknownKeysPassThrough(j: Json, k: string)
    requires Parse(j).Some? && k !in KEYS
    ensures At(Parse(j).value.extra, k) == At(Print(Parse(j).value).fields, k)
    ensures j.Obj? ==> At(Parse(j).value.extra, k) == At(j.fields, k)
  {
    hide ParseThresholds, PrintThresholds, Typed;
    PrintedAt(Parse(j).value, k);
  }

  // The value a key may have, key by key.
  predicate Fits(key: string, v: Json) {
    match key
    case "min" => v.Num?
    case "max" => v.Num?
    case "step" => v.Num?
    case "values" => v.Arr? && forall i :: 0 <= i < |v.items| ==> v.items[i].Str?
    case "maxLen" => v.Num? && v.r == v.r.Floor as real && -TWO_63 <= v.r.Floor < TWO_63
    case "thresholds" =>
      v.Null? || (v.Obj? && forall k :: k in v.fields && (k == "min" || k == "max") ==> v.fields[k].Num?)
    case _ => true
  }

  /** What is accepted: null, and an object all of whose known keys have values of their kind. */
  lemma AcceptedIff(j: Json)
    ensures Parse(j).Some? <==> j.Null? || (j.Obj? && forall k :: k in j.fields ==> Fits(k, j.fields[k]))
  {
    if j.Obj? {
      forall k | k in j.fields ensures Typed(k, j.fields[k]) <==> Fits(k, j.fields[k]) {
        TypedIff(k, j.fields[k]);
      }
    }
  }

  lemma TypedIff(key: string, v: Json)
    ensures Typed(key, v) <==> Fits(key, v)
  {
    if key == "thresholds" && v.Obj? {
      assert NumberOrAbsent(At(v.fields, "min")) <==> ("min" in v.fields ==> v.fields["min"].Num?);
    }
  }

  /** Parsing and printing loses nothing of an accepted object: every key keeps its value, except that an empty list of
      values is dropped and thresholds of null come back as an object without keys. */
  lemma PrintedBack(j: Json, k: string)
    requires Decoded(j) && j.Obj? && Parse(j).Some?
    ensures At(Print(Parse(j).value).fields, k) ==
            if k == "values" && At(j.fields, k) == Some(Arr([])) then None
            else if k == "thresholds" && At(j.fields, k) == Some(Null) then Some(Obj(map[]))
            else At(j.fields, k)
  {
    hide FloatOf, ParseThresholds, PrintThresholds, Print;
    var s := Parse(j).value;
    PrintedAt(s, k);
    if k in j.fields {
      assert Typed(k, j.fields[k]);
      if k == "thresholds" {
        ThresholdsPrintedBack(j.fields[k]);
      } else if k == "values" && j.fields[k].items != [] {
        assert Strings(Texts(j.fields[k].items)) == j.fields[k].items;
      }
    }
  }

  lemma ThresholdsPrintedBack(j: Json)
    requires ParseThresholds(j).Some?
    ensures PrintThresholds(ParseThresholds(j).value) == if j.Null? then Obj(map[]) else j
  {
    var t := ParseThresholds(j).value;
    var fields := if j.Null? then map[] else j.fields;
    forall k ensures At(PrintThresholds(t).fields, k) == At(fields, k) {
      PrintedThresholdAt(t, k);
    }
    SameMap(PrintThresholds(t).fields, fields);
  }

  // ---------- the loops, over maps in any order ----------

  // The extra keys are written after the known ones, in whatever order the map yields them.
  method MarshalExtra(known: map<string, Json>, extra: map<string, Json>) returns (m: map<string, Json>)
    ensures m == known + extra
  {
    m := known;
    var left := extra.Keys;
    while left != {}
      invariant left <= extra.Keys
      invariant m.Keys == known.Keys + (extra.Keys - left)
      invariant forall k :: k in m ==> m[k] == if k in extra.Keys - left then extra[k] else known[k]
      decreases left
    {
      var k :| k in left;
      left := left - {k};
      m := m[k := extra[k]];
    }
  }

  method MarshalThresholds(t: Thresholds) returns (j: Json)
    ensures j == PrintThresholds(t)
  {
    var known := map[];
    if t.min.Some? {
      known := known["min" := Num(t.min.value)];
    }
    if t.max.Some? {
      known := known["max" := Num(t.max.value)];
    }
    assert known == map k | k in THRESHOLD_KEYS && ThresholdValue(t, k).Some? :: ThresholdValue(t, k).value;
    var m := MarshalExtra(known, t.extra);
    return Obj(m);
  }

  lemma OneMoreKey(s: Specs, keys: set<string>, k: string)
    requires k !in keys
    ensures Known(s, keys + {k}) ==
            if SpecsValue(s, k).Some? then Known(s, keys)[k := SpecsValue(s, k).value] else Known(s, keys)
  {
    hide SpecsValue;
  }

  method Marshal(s: Specs) returns (j: Json)
    ensures j == Print(s)
  {
    hide Known, PrintThresholds, FloatOf;
    var known: map<string, Json> := map[];
    assert known == Known(s, {}) by {
      NoKeys(s);
    }
    OneMoreKey(s, {}, "min");
    if s.min.Some? {
      known := known["min" := Num(s.min.value)];
    }
    assert {} + {"min"} == {"min"};
    OneMoreKey(s, {"min"}, "max");
    if s.max.Some? {
      known := known["max" := Num(s.max.value)];
    }
    assert {"min"} + {"max"} == {"min", "max"};
    OneMoreKey(s, {"min", "max"}, "step");
    if s.step.Some? {
      known := known["step" := Num(s.step.value)];
    }
    assert {"min", "max"} + {"step"} == {"min", "max", "step"};
    OneMoreKey(s, {"min", "max", "step"}, "values");
    if s.values.Some? && s.values.value != [] {
      known := known["values" := Arr(Strings(s.values.value))];
    }
    assert {"min", "max", "step"} + {"values"} == {"min", "max", "step", "values"};
    known := MarshalRest(s, known);
    var m := MarshalExtra(known, s.extra);
    return Obj(m);
  }

  method MarshalRest(s: Specs, known0: map<string, Json>) returns (known: map<string, Json>)
    requires known0 == Known(s, {"min", "max", "step", "values"})
    ensures known == Known(s, KEYS)
  {
    hide Known, PrintThresholds, FloatOf;
    known := known0;
    OneMoreKey(s, {"min", "max", "step", "values"}, "maxLen");
    if s.maxLen.Some? {
      known := known["maxLen" := Num(FloatOf(s.maxLen.value) as real)];
    }
    assert {"min", "max", "step", "values"} + {"maxLen"} == {"min", "max", "step", "values", "maxLen"};
    OneMoreKey(s, {"min", "max", "step", "values", "maxLen"}, "thresholds");
    if s.thresholds.Some? {
      var t := MarshalThresholds(s.thresholds.value);
      known := known["thresholds" := t];
    }
    assert {"min", "max", "step", "values", "maxLen"} + {"thresholds"} == KEYS;
  }

  lemma NoKeys(s: Specs)
    ensures Known(s, {}) == map[]
  {
  }

  // The parsed state once the keys in done have been seen.
  predicate ThresholdsSoFar(t: Thresholds, f: map<string, Json>, done: set<string>)
    requires done <= f.Keys
  {
    && (if "min" in done then f["min"].Num? && t.min == Some(f["min"].r) else t.min == None)
    && (if "max" in done then f["max"].Num? && t.max == Some(f["max"].r) else t.max == None)
    && t.extra.Keys == done - THRESHOLD_KEYS
    && forall k :: k in t.extra ==> t.extra[k] == f[k]
  }

  /** Acceptance and result do not depend on the order in which the map yields its keys. */
  method UnmarshalThresholds(j: Json) returns (r: Option<Thresholds>)
    ensures r == ParseThresholds(j)
  {
    var fields := FieldsOf(j);
    if fields.None? {
      return None;
    }
    var f := fields.value;
    var t := Thresholds(None, None, map[]);
    var left := f.Keys;
    while left != {}
      invariant left <= f.Keys && ThresholdsSoFar(t, f, f.Keys - left)
      decreases left
    {
      var k :| k in left;
      if k == "min" {
        if !f[k].Num? {
          return None;
        }
        t := t.(min := Some(f[k].r));
      } else if k == "max" {
        if !f[k].Num? {
          return None;
        }
        t := t.(max := Some(f[k].r));
      } else {
        t := t.(extra := t.extra[k := f[k]]);
      }
      left := left - {k};
    }
    assert t.extra == f - THRESHOLD_KEYS;
    return Some(t);
  }

  // The specs after one more key has been seen.
  function Taking(s: Specs, k: string, v: Json): Specs
    requires Typed(k, v)
  {
    if k == "min" then s.(min := Some(v.r))
    else if k == "max" then s.(max := Some(v.r))
    else if k == "step" then s.(step := Some(v.r))
    else if k == "values" then s.(values := if v.items == [] then None else Some(Texts(v.items)))
    else if k == "maxLen" then s.(maxLen := ToInt(v))
    else if k == "thresholds" then s.(thresholds := ParseThresholds(v))
    else s.(extra := s.extra[k := v])
  }

  lemma BuiltTaking(f: map<string, Json>, k: string, v: Json)
    requires (forall k' :: k' in f ==> Typed(k', f[k'])) && k !in f && Typed(k, v)
    ensures Built(f[k := v]) == Taking(Built(f), k, v)
  {
    hide ParseThresholds, ToInt;
    var more := f[k := v];
    assert k in KEYS ==> more - KEYS == f - KEYS;
    assert k !in KEYS ==> more - KEYS == (f - KEYS)[k := v];
  }

  method UnmarshalTexts(items: seq<Json>) returns (texts: Option<seq<string>>)
    ensures texts == if AllStrings(items) then Some(Texts(items)) else None
  {
    var found := [];
    for i := 0 to |items|
      invariant AllStrings(items[..i]) && found == Texts(items[..i])
    {
      if !items[i].Str? {
        return None;
      }
      found := found + [items[i].s];
    }
    assert items[..|items|] == items;
    return Some(found);
  }

  // The typed value of one key, stored; None rejects it.
  method Take(s: Specs, k: string, v: Json) returns (r: Option<Specs>)
    ensures r == if Typed(k, v) then Some(Taking(s, k, v)) else None
  {
    hide ParseThresholds, ToInt;
    if k == "min" || k == "max" || k == "step" {
      if !v.Num? {
        return None;
      }
      return Some(if k == "min" then s.(min := Some(v.r))
                  else if k == "max" then s.(max := Some(v.r))
                  else s.(step := Some(v.r)));
    } else if k == "values" {
      if !v.Arr? {
        return None;
      }
      var texts := UnmarshalTexts(v.items);
      if texts.None? {
        return None;
      }
      return Some(s.(values := if texts.value == [] then None else texts));
    } else if k == "maxLen" {
      var n := ToInt(v);
      if n.None? {
        return None;
      }
      return Some(s.(maxLen := n));
    } else if k == "thresholds" {
      var t := UnmarshalThresholds(v);
      if t.None? {
        return None;
      }
      return Some(s.(thresholds := t));
    }
    return Some(s.(extra := s.extra[k := v]));
  }

  /** The keys are visited in an order the map chooses; acceptance and result do not depend on it. */
  method Unmarshal(j: Json) returns (r: Option<Specs>)
    ensures r == Parse(j)
  {
    hide Built, Taking, Typed;
    var fields := FieldsOf(j);
    if fields.None? {
      return None;
    }
    var f := fields.value;
    ghost var seen: map<string, Json> := map[];
    var s := Specs(None, None, None, None, None, None, map[]);
    NothingBuilt();
    var left := f.Keys;
    while left != {}
      invariant left <= f.Keys && seen.Keys == f.Keys - left
      invariant forall k :: k in seen ==> seen[k] == f[k] && Typed(k, f[k])
      invariant s == Built(seen)
      decreases left
    {
      var k :| k in left;
      var next := Take(s, k, f[k]);
      if next.None? {
        return None;
      }
      BuiltTaking(seen, k, f[k]);
      s := next.value;
      seen := seen[k := f[k]];
      left := left - {k};
    }
    assert seen == f;
    return Some(s);
  }

  lemma NothingBuilt()
    ensures Built(map[]) == Specs(None, None, None, None, None, None, map[])
  {
  }

  // ---------- validation ----------

  function Present(bound: Option<real>): seq<real> {
    if bound.Some? then [bound.value] else []
  }

  // The bounds that are given, outermost first: the range, and inside it the thresholds.
  function Bounds(s: Specs): seq<real> {
    if s.thresholds.Some? then
      Present(s.min) + Present(s.thresholds.value.min) + Present(s.thresholds.value.max) + Present(s.max)
    else Present(s.min) + Present(s.max)
  }

  predicate Ascending(bounds: seq<real>) {
    forall i, j :: 0 <= i < j < |bounds| ==> bounds[i] <= bounds[j]
  }

  predicate Above(bound: Option<real>, limit: Option<real>) {
    bound.Some? && limit.Some? && bound.value > limit.value
  }

  /** Valid specs are those whose given bounds ascend from the range's minimum over the thresholds to its maximum, with a
      positive step and a positive maximal length. */
  method Validate(s: Specs) returns (ok: bool)
    ensures ok <==>
            && Ascending(Bounds(s))
            && (s.step.Some? ==> s.step.value > 0.0)
            && (s.maxLen.Some? ==> s.maxLen.value > 0)
  {
    if Above(s.min, s.max) {
      assert !Ascending(Bounds(s)) by {
        var b := Bounds(s);
        assert b[0] == s.min.value && b[|b| - 1] == s.max.value;
      }
      return false;
    }
    if s.step.Some? && s.step.value <= 0.0 {
      return false;
    }
    if s.maxLen.Some? && s.maxLen.value <= 0 {
      return false;
    }
    if s.thresholds.Some? {
      var t := s.thresholds.value;
      AscendingIff(s.min, t.min, t.max, s.max);
      if Above(s.min, t.min) || Above(t.max, s.max) || Above(t.min, t.max) || Above(t.min, s.max) || Above(s.min, t.max) {
        return false;
      }
    }
    return true;
  }

  lemma AscendingIff(a: Option<real>, b: Option<real>, c: Option<real>, d: Option<real>)
    ensures Ascending(Present(a) + Present(b) + Present(c) + Present(d)) <==>
            !Above(a, b) && !Above(a, c) && !Above(a, d) && !Above(b, c) && !Above(b, d) && !Above(c, d)
  {
    var bounds := Present(a) + Present(b) + Present(c) + Present(d);
    var ia, ib, ic := 0, |Present(a)|, |Present(a)| + |Present(b)|;
    var id := ic + |Present(c)|;
    assert a.Some? ==> bounds[ia] == a.value;
    assert b.Some? ==> bounds[ib] == b.value;
    assert c.Some? ==> bounds[ic] == c.value;
    assert d.Some? ==> bounds[id] == d.value;
  }
}
