/**
 * Decoded JSON values and the per-field validation Pydantic applies when it
 * builds a request model from them: a missing required field, a value of
 * the wrong type and a violated bound each give one located error, and a
 * model is built only when no field has one. Keys the model does not
 * declare are ignored.
 */
module JsonFields {
  import opened Wrappers
  import opened Text

  datatype Json =
    | JNull
    | JBool(b: bool)
    | JInt(i: int)
    | JReal(r: real)
    | JStr(s: string)
    | JList(items: seq<Json>)
    | JObject(fields: map<string, Json>)

  /** What is wrong with one field. */
  datatype Issue =
    | Missing
    | NotAString
    | NotAnInteger
    | NotANumber
    | NotABool
    | NotAList
    | NotAnObject
    | TooShort(minLength: nat)
    | BelowMin(ge: real)
    | AboveMax(le: real)

  /** One entry of a `ValidationError`: where, and what. */
  datatype FieldError = FieldError(loc: seq<string>, issue: Issue)

  type Parsed<T> = Result<T, seq<FieldError>>

  /** The errors of one field, none when it parsed. */
  function Errors<T>(r: Parsed<T>): (es: seq<FieldError>)
    ensures |es| == 0 <==> r.Ok? || |r.error| == 0
  {
    if r.Ok? then [] else r.error
  }

  function Fail<T>(loc: seq<string>, issue: Issue): (r: Parsed<T>)
    ensures r.Err? && r.error == [FieldError(loc, issue)]
  {
    Err([FieldError(loc, issue)])
  }

  /** A required `str` field. */
  function ReadStr(obj: map<string, Json>, name: string, loc: seq<string>): (r: Parsed<string>)
    ensures r.Ok? <==> name in obj && obj[name].JStr?
    ensures r.Ok? ==> r.value == obj[name].s
    ensures r.Err? ==> r.error == [FieldError(loc + [name], if name in obj then NotAString else Missing)]
  {
    if name !in obj then Fail(loc + [name], Missing)
    else if obj[name].JStr? then Ok(obj[name].s)
    else Fail(loc + [name], NotAString)
  }

  /** A required `str` field with `min_length`. */
  function ReadStrMinLength(obj: map<string, Json>, name: string, loc: seq<string>, minLength: nat): (r: Parsed<string>)
    ensures r.Ok? <==> name in obj && obj[name].JStr? && |obj[name].s| >= minLength
    ensures r.Ok? ==> r.value == obj[name].s
    ensures r.Err? ==> r.error == [FieldError(loc + [name], if name !in obj then Missing
                                                          else if !obj[name].JStr? then NotAString
                                                          else TooShort(minLength))]
  {
    var s := ReadStr(obj, name, loc);
    if s.Ok? && |s.value| < minLength then Fail(loc + [name], TooShort(minLength)) else s
  }

  /** An `Optional[str]` field defaulting to None: absent and `null` both give None. */
  function ReadOptStr(obj: map<string, Json>, name: string, loc: seq<string>): (r: Parsed<Option<string>>)
    ensures r.Ok? <==> name !in obj || obj[name].JNull? || obj[name].JStr?
    ensures r.Ok? ==> r.value == (if name in obj && obj[name].JStr? then Some(obj[name].s) else None)
    ensures r.Err? ==> r.error == [FieldError(loc + [name], NotAString)]
  {
    if name !in obj || obj[name].JNull? then Ok(None)
    else if obj[name].JStr? then Ok(Some(obj[name].s))
    else Fail(loc + [name], NotAString)
  }

  /** A required `bool` field. */
  function ReadBool(obj: map<string, Json>, name: string, loc: seq<string>): (r: Parsed<bool>)
    ensures r.Ok? <==> name in obj && obj[name].JBool?
    ensures r.Ok? ==> r.value == obj[name].b
  {
    if name !in obj then Fail(loc + [name], Missing)
    else if obj[name].JBool? then Ok(obj[name].b)
    else Fail(loc + [name], NotABool)
  }

  /** A required `int` field, optionally with `ge`. */
  function ReadInt(obj: map<string, Json>, name: string, loc: seq<string>, ge: Option<int>): (r: Parsed<int>)
    ensures r.Ok? <==> name in obj && obj[name].JInt? && (ge.Some? ==> obj[name].i >= ge.value)
    ensures r.Ok? ==> r.value == obj[name].i
    ensures r.Err? ==> |r.error| == 1 && r.error[0].loc == loc + [name]
  {
    if name !in obj then Fail(loc + [name], Missing)
    else if !obj[name].JInt? then Fail(loc + [name], NotAnInteger)
    else if ge.Some? && obj[name].i < ge.value then Fail(loc + [name], BelowMin(ge.value as real))
    else Ok(obj[name].i)
  }

  /** An `Optional[int]` field defaulting to None, optionally with `ge` on a present value. */
  function ReadOptInt(obj: map<string, Json>, name: string, loc: seq<string>, ge: Option<int>): (r: Parsed<Option<int>>)
    ensures r.Ok? <==> name !in obj || obj[name].JNull? || (obj[name].JInt? && (ge.Some? ==> obj[name].i >= ge.value))
    ensures r.Ok? ==> r.value == (if name in obj && obj[name].JInt? then Some(obj[name].i) else None)
  {
    if name !in obj || obj[name].JNull? then Ok(None)
    else if !obj[name].JInt? then Fail(loc + [name], NotAnInteger)
    else if ge.Some? && obj[name].i < ge.value then Fail(loc + [name], BelowMin(ge.value as real))
    else Ok(Some(obj[name].i))
  }

  predicate IsNumber(j: Json) { j.JInt? || j.JReal? }

  function NumberValue(j: Json): real
    requires IsNumber(j)
  {
    if j.JInt? then j.i as real else j.r
  }

  /** A required `float` field (an integer is accepted) with `ge=0, le=1`. */
  function ReadUnit(obj: map<string, Json>, name: string, loc: seq<string>): (r: Parsed<real>)
    ensures r.Ok? <==> name in obj && IsNumber(obj[name]) && 0.0 <= NumberValue(obj[name]) <= 1.0
    ensures r.Ok? ==> r.value == NumberValue(obj[name])
    ensures r.Err? ==> |r.error| == 1 && r.error[0].loc == loc + [name]
  {
    if name !in obj then Fail(loc + [name], Missing)
    else if !IsNumber(obj[name]) then Fail(loc + [name], NotANumber)
    else
      var v := NumberValue(obj[name]);
      if v < 0.0 then Fail(loc + [name], BelowMin(0.0))
      else if v > 1.0 then Fail(loc + [name], AboveMax(1.0))
      else Ok(v)
  }

  /** A nested model field: the sub-parser runs on the value, with its location under the field's name. */
  function ReadObject(obj: map<string, Json>, name: string, loc: seq<string>): (r: Parsed<map<string, Json>>)
    ensures r.Ok? <==> name in obj && obj[name].JObject?
    ensures r.Ok? ==> r.value == obj[name].fields
  {
    if name !in obj then Fail(loc + [name], Missing)
    else if obj[name].JObject? then Ok(obj[name].fields)
    else Fail(loc + [name], NotAnObject)
  }

  /** A required list field's items. */
  function ReadList(obj: map<string, Json>, name: string, loc: seq<string>): (r: Parsed<seq<Json>>)
    ensures r.Ok? <==> name in obj && obj[name].JList?
    ensures r.Ok? ==> r.value == obj[name].items
  {
    if name !in obj then Fail(loc + [name], Missing)
    else if obj[name].JList? then Ok(obj[name].items)
    else Fail(loc + [name], NotAList)
  }

  /** `List[str]` items, each located by its index. */
  function StrItems(items: seq<Json>, loc: seq<string>): (r: Parsed<seq<string>>)
    ensures r.Ok? <==> forall i :: 0 <= i < |items| ==> items[i].JStr?
    ensures r.Ok? ==> |r.value| == |items| && forall i :: 0 <= i < |items| ==> r.value[i] == items[i].s
  {
    if |items| == 0 then Ok([])
    else
      var init := StrItems(items[..|items| - 1], loc);
      var last := items[|items| - 1];
      var here := if last.JStr? then Ok(last.s) else Fail(loc + [NatToDecimal(|items| - 1)], NotAString);
      if init.Ok? && here.Ok? then Ok(init.value + [here.value])
      else Err(Errors(init) + Errors(here))
  }

  /** `List[int]` items, each located by its index. */
  function IntItems(items: seq<Json>, loc: seq<string>): (r: Parsed<seq<int>>)
    ensures r.Ok? <==> forall i :: 0 <= i < |items| ==> items[i].JInt?
    ensures r.Ok? ==> |r.value| == |items| && forall i :: 0 <= i < |items| ==> r.value[i] == items[i].i
  {
    if |items| == 0 then Ok([])
    else
      var init := IntItems(items[..|items| - 1], loc);
      var last := items[|items| - 1];
      var here := if last.JInt? then Ok(last.i) else Fail(loc + [NatToDecimal(|items| - 1)], NotAnInteger);
      if init.Ok? && here.Ok? then Ok(init.value + [here.value])
      else Err(Errors(init) + Errors(here))
  }

  function StrJsons(xs: seq<string>): (js: seq<Json>)
    ensures |js| == |xs| && forall i :: 0 <= i < |xs| ==> js[i] == JStr(xs[i])
  {
    seq(|xs|, i requires 0 <= i < |xs| => JStr(xs[i]))
  }

  function IntJsons(xs: seq<int>): (js: seq<Json>)
    ensures |js| == |xs| && forall i :: 0 <= i < |xs| ==> js[i] == JInt(xs[i])
  {
    seq(|xs|, i requires 0 <= i < |xs| => JInt(xs[i]))
  }

  /** `Optional[str]` dumped: None becomes `null`. */
  function OptStrJson(v: Option<string>): Json
  {
    if v.Some? then JStr(v.value) else JNull
  }

  function OptIntJson(v: Option<int>): Json
  {
    if v.Some? then JInt(v.value) else JNull
  }
}
