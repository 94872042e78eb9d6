/**
 * The PHP values the core reads and writes: a decoded JSON payload (what
 * `ResponseInterface::toArray()` returns), floats kept opaque, dates, and the
 * conversions that PHP performs, under `declare(strict_types=1)`, when a payload
 * value is passed to a typed parameter.
 */
module Php {
  import opened Wrappers
  import opened Errors
  import Text

  /** A PHP float, kept opaque and identified by its canonical decimal text (what `(string)` gives). */
  datatype Float = Float(repr: string)

  /** A calendar date as DateTimeImmutable holds it; the time of day is not modelled. */
  datatype Date = Date(year: nat, month: nat, day: nat)

  /** A decoded JSON payload. An object stands for a PHP array with string keys, so its names are distinct. */
  datatype Json =
    | JNull
    | JBool(b: bool)
    | JInt(i: int)
    | JFloat(f: Float)
    | JString(s: string)
    | JArray(items: seq<Json>)
    | JObject(members: seq<(string, Json)>)

  /** A PHP array key as foreach yields it: lists have integer keys, objects string keys. */
  datatype Key = StrKey(s: string) | IntKey(i: int)

  /**
   * `$a[$name]` read on a decoded payload: the member's value, or null (with a
   * warning, not modelled) when $a has no such key or is not an array.
   */
  function Index(j: Json, name: string): (r: Json)
    ensures j.JObject? && (exists k :: 0 <= k < |j.members| && j.members[k].0 == name) ==>
              exists k :: 0 <= k < |j.members| && j.members[k] == (name, r)
    ensures j.JObject? && (forall k :: 0 <= k < |j.members| ==> j.members[k].0 != name) ==> r == JNull
    ensures !j.JObject? ==> r == JNull
  {
    match j
    case JObject(members) => Member(members, name)
    case _ => JNull
  }

  function Member(members: seq<(string, Json)>, name: string): (r: Json)
    ensures (exists k :: 0 <= k < |members| && members[k].0 == name) ==>
              exists k :: 0 <= k < |members| && members[k] == (name, r)
    ensures (forall k :: 0 <= k < |members| ==> members[k].0 != name) ==> r == JNull
  {
    if members == [] then JNull
    else if members[0].0 == name then members[0].1
    else
      var r := Member(members[1..], name);
      assert forall k :: 1 <= k < |members| ==> members[k] == members[1..][k - 1];
      r
  }

  /**
   * The (key, value) pairs `foreach ($a as $key => $value)` visits, in order. A
   * value that is not an array is visited as nothing (PHP only warns).
   */
  function Members(j: Json): (r: seq<(Key, Json)>)
    ensures j.JObject? ==>
              |r| == |j.members| && forall k :: 0 <= k < |r| ==> r[k] == (StrKey(j.members[k].0), j.members[k].1)
    ensures j.JArray? ==> |r| == |j.items| && forall k :: 0 <= k < |r| ==> r[k] == (IntKey(k), j.items[k])
    ensures !j.JObject? && !j.JArray? ==> r == []
  {
    match j
    case JObject(members) => seq(|members|, k requires 0 <= k < |members| => (StrKey(members[k].0), members[k].1))
    case JArray(items) => seq(|items|, k requires 0 <= k < |items| => (IntKey(k), items[k]))
    case _ => []
  }

  /** PHP's truthiness, as `?:` tests it. */
  predicate Truthy(j: Json)
  {
    match j
    case JNull => false
    case JBool(b) => b
    case JInt(i) => i != 0
    case JFloat(f) => f.repr != "0" && f.repr != "-0"
    case JString(s) => s != "" && s != "0"
    case JArray(items) => items != []
    case JObject(members) => members != []
  }

  /** PHP's float of an integer (exact for the integers a payload carries). */
  function IntToFloat(i: int): Float
  {
    Float(Text.IntText(i))
  }

  /** A payload value passed to a `float` parameter: an int is widened, anything else is a TypeError. */
  function ToFloat(j: Json): (r: Result<Float, Cause>)
    ensures r.Success? <==> j.JFloat? || j.JInt?
    ensures r.Failure? ==> r.error == TypeError
  {
    match j
    case JFloat(f) => Success(f)
    case JInt(i) => Success(IntToFloat(i))
    case _ => Failure(TypeError)
  }

  /** A payload value passed to an `int` parameter: only an int is accepted. */
  function ToInt(j: Json): (r: Result<int, Cause>)
    ensures r.Success? <==> j.JInt?
    ensures r.Success? ==> j == JInt(r.value)
    ensures r.Failure? ==> r.error == TypeError
  {
    if j.JInt? then Success(j.i) else Failure(TypeError)
  }

  /** A payload value passed to a `bool` parameter: only a bool is accepted. */
  function ToBool(j: Json): (r: Result<bool, Cause>)
    ensures r.Success? <==> j.JBool?
    ensures r.Success? ==> j == JBool(r.value)
    ensures r.Failure? ==> r.error == TypeError
  {
    if j.JBool? then Success(j.b) else Failure(TypeError)
  }

  /** A payload value passed to an `array` parameter: a list or an object, unchanged. */
  function ToArray(j: Json): (r: Result<Json, Cause>)
    ensures r.Success? <==> j.JArray? || j.JObject?
    ensures r.Success? ==> r.value == j
    ensures r.Failure? ==> r.error == TypeError
  {
    if j.JArray? || j.JObject? then Success(j) else Failure(TypeError)
  }

  /** Is s of the form YYYY-MM-DD, with digits where the format has them? */
  predicate YmdShaped(s: string)
  {
    && |s| == 10
    && s[4] == '-' && s[7] == '-'
    && Text.AllDigits(s[..4]) && Text.AllDigits(s[5..7]) && Text.AllDigits(s[8..])
  }

  /** The date written as YYYY-MM-DD. */
  function ParseYmd(s: string): Option<Date>
  {
    if YmdShaped(s) then
      Some(Date(Text.DigitsValue(s[..4]), Text.DigitsValue(s[5..7]), Text.DigitsValue(s[8..])))
    else None
  }

  /** DateTimeInterface::format('Y-m-d'). */
  function FormatYmd(d: Date): string
  {
    Text.ZeroPadded(d.year, 4) + "-" + Text.ZeroPadded(d.month, 2) + "-" + Text.ZeroPadded(d.day, 2)
  }

  /** Formatting a four-digit-year date as Y-m-d and reading it back gives the same date. */
  lemma YmdRoundTrip(d: Date)
    requires d.year < 10000 && d.month < 100 && d.day < 100
    ensures ParseYmd(FormatYmd(d)) == Some(d)
  {
    assert Text.Pow10(4) == 10000 && Text.Pow10(2) == 100 by {
      assert Text.Pow10(1) == 10;
      assert Text.Pow10(3) == 1000;
    }
    Text.ZeroPaddedWidth(d.year, 4);
    Text.ZeroPaddedWidth(d.month, 2);
    Text.ZeroPaddedWidth(d.day, 2);
    Text.ZeroPaddedValue(d.year, 4);
    Text.ZeroPaddedValue(d.month, 2);
    Text.ZeroPaddedValue(d.day, 2);
    var y, m, dd := Text.ZeroPadded(d.year, 4), Text.ZeroPadded(d.month, 2), Text.ZeroPadded(d.day, 2);
    var s := FormatYmd(d);
    assert s[..4] == y;
    assert s[5..7] == m;
    assert s[8..] == dd;
  }

  /**
   * `new \DateTimeImmutable($value)`: a non-string is a TypeError, text it cannot
   * read throws. Only the YYYY-MM-DD form the API sends is read.
   */
  function ParseDate(j: Json): (r: Result<Date, Cause>)
    ensures r.Success? <==> j.JString? && YmdShaped(j.s)
    ensures r.Success? ==> ParseYmd(j.s) == Some(r.value)
    ensures !j.JString? ==> r == Failure(TypeError)
  {
    if !j.JString? then Failure(TypeError)
    else match ParseYmd(j.s)
      case Some(d) => Success(d)
      case None => Failure(InvalidDate)
  }

  /**
   * `\DateTimeImmutable::createFromFormat('Y-m-d', $value)` passed on to a
   * DateTimeImmutable parameter: text not in that form yields false, which the
   * parameter rejects with a TypeError.
   */
  function ParseDateFormatYmd(j: Json): (r: Result<Date, Cause>)
    ensures r.Success? <==> j.JString? && YmdShaped(j.s)
    ensures r.Success? ==> ParseYmd(j.s) == Some(r.value)
    ensures r.Failure? ==> r.error == TypeError
  {
    if !j.JString? then Failure(TypeError)
    else match ParseYmd(j.s)
      case Some(d) => Success(d)
      case None => Failure(TypeError)
  }
}
