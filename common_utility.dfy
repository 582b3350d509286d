/** `internal/app/utils/commonUtility.go` */
module CommonUtility {
  import opened Wrappers
  import opened GoInt
  import opened Strconv

  /** `StringContains`: a `range` loop that returns on the first equal element. */
  method StringContains(slice: seq<string>, str: string) returns (found: bool)
    ensures found <==> str in slice
  {
    for i := 0 to |slice|
      invariant str !in slice[..i]
    {
      if slice[i] == str {
        return true;
      }
    }
    assert slice[..|slice|] == slice;
    return false;
  }

  /** `IntContains`, the same search over `int64` values. */
  method IntContains(slice: seq<Int64>, i: Int64) returns (found: bool)
    ensures found <==> i in slice
  {
    for k := 0 to |slice|
      invariant i !in slice[..k]
    {
      if slice[k] == i {
        return true;
      }
    }
    assert slice[..|slice|] == slice;
    return false;
  }

  /**
   * A Go `interface{}` value as far as the type switch of `ConvertToInt64`
   * distinguishes it: the listed integer kinds, a string, or any other type,
   * known only by its `%T` name. Floating-point values are not part of this model.
   */
  datatype Any =
    | AnyInt64(i64: Int64)
    | AnyInt(i: Int64)
    | AnyInt32(i32: Int32)
    | AnyInt16(i16: Int16)
    | AnyInt8(i8: Int8)
    | AnyString(s: string)
    | AnyOther(typeName: string)

  /** The text of a `strconv` error value: `ErrSyntax.Error()` and `ErrRange.Error()`. */
  function ReasonText(k: NumError): (t: string)
    ensures t == "invalid syntax" <==> k == ErrSyntax
    ensures t == "value out of range" <==> k == ErrRange
  {
    match k
    case ErrSyntax => "invalid syntax"
    case ErrRange => "value out of range"
  }

  /** `strconv.Quote` on text whose only characters needing an escape are `"` and `\`. */
  function Quote(s: string): (q: string)
    ensures |q| >= |s| + 2 && q[0] == '"' && q[|q| - 1] == '"'
  {
    "\"" + Escaped(s) + "\""
  }

  function Escaped(s: string): (e: string)
    ensures |e| >= |s|
    ensures (forall i :: 0 <= i < |s| ==> s[i] != '"' && s[i] != '\\') ==> e == s
  {
    if s == [] then []
    else (if s[0] == '"' || s[0] == '\\' then ['\\', s[0]] else [s[0]]) + Escaped(s[1..])
  }

  /** The error of a failed conversion: a parse error of `ParseInt`, or the `unsupported type` error. */
  datatype ConvError = ParseFailure(kind: NumError, input: string) | UnsupportedType(typeName: string) {
    /** `err.Error()`: `(*strconv.NumError).Error()` for a parse failure, the `%T`-formatted text otherwise. */
    function Message(): (m: string)
      ensures ParseFailure? ==>
        var prefix := "strconv.ParseInt: parsing ";
        var suffix := ": " + ReasonText(kind);
        && |m| >= |prefix| + |suffix| && m[..|prefix|] == prefix && m[|m| - |suffix|..] == suffix
        && m[|prefix|..|m| - |suffix|] == Quote(input)
      ensures UnsupportedType? ==> m == "unsupported type: " + typeName
    {
      match this
      case ParseFailure(k, input) => "strconv.ParseInt: parsing " + Quote(input) + ": " + ReasonText(k)
      case UnsupportedType(name) => "unsupported type: " + name
    }
  }

  /** The `(int64, error)` pair `ConvertToInt64` returns. */
  datatype Converted = Converted(value: Int64, err: Option<ConvError>)

  function ConvertToInt64(val: Any): (r: Converted)
    ensures val.AnyInt64? ==> r == Converted(val.i64, None)
    ensures val.AnyInt? ==> r == Converted(val.i, None)
    ensures val.AnyInt32? ==> r == Converted(val.i32, None)
    ensures val.AnyInt16? ==> r == Converted(val.i16, None)
    ensures val.AnyInt8? ==> r == Converted(val.i8, None)
    ensures val.AnyString? ==>
      && (r.err == None <==> IsDecimal(val.s) && InInt64(SignedValue(val.s)))
      && (r.err == None ==> r.value == SignedValue(val.s))
      && (r.err.Some? ==> ParseInt64(val.s).err.Some? && r.err.value == ParseFailure(ParseInt64(val.s).err.value, val.s))
    ensures val.AnyOther? ==> r == Converted(0, Some(UnsupportedType(val.typeName)))
  {
    match val
    case AnyInt64(v) => Converted(v, None)
    case AnyInt(v) => Converted(v, None)
    case AnyInt32(v) => Converted(v, None)
    case AnyInt16(v) => Converted(v, None)
    case AnyInt8(v) => Converted(v, None)
    case AnyString(s) =>
      ParseInt64Correct(s);
      var p := ParseInt64(s);
      Converted(p.value, if p.err.Some? then Some(ParseFailure(p.err.value, s)) else None)
    case AnyOther(name) => Converted(0, Some(UnsupportedType(name)))
  }

  /** `GetEnvAsInt`, with the process environment given as a map. */
  function GetEnvAsInt(env: map<string, string>, name: string, defaultVal: Int64): (r: Int64)
    ensures name !in env ==> r == defaultVal
    ensures name in env && !(IsDecimal(env[name]) && InInt64(SignedValue(env[name]))) ==> r == defaultVal
    ensures name in env && IsDecimal(env[name]) && InInt64(SignedValue(env[name])) ==> r == SignedValue(env[name])
  {
    if name !in env then defaultVal
    else
      ParseInt64Correct(env[name]);
      var p := ParseInt64(env[name]);
      if p.err.Some? then defaultVal else p.value
  }

  /** `GetEnvAsString`: a present variable wins even when it is empty. */
  function GetEnvAsString(env: map<string, string>, name: string, defaultVal: string): (r: string)
    ensures name in env ==> r == env[name]
    ensures name !in env ==> r == defaultVal
  {
    if name in env then env[name] else defaultVal
  }

  /** A variable set with `strconv.Itoa(n)` reads back as `n`. */
  lemma GetEnvAsIntOfItoa(env: map<string, string>, name: string, n: Int64, defaultVal: Int64)
    requires name in env && env[name] == FormatInt(n)
    ensures GetEnvAsInt(env, name, defaultVal) == n
  {
    ParseFormatRoundTrip(n);
  }

  /** A string that does not parse reports the quoted input and `invalid syntax`: the text of the failing example. */
  lemma ConvertSyntaxErrorMessage()
    ensures ConvertToInt64(AnyString("abc")).err.value.Message() == "strconv.ParseInt: parsing \"abc\": invalid syntax"
  {
    var s := "abc";
    assert !IsDigit(s[0]);
    assert ParseInt64(s) == Parsed(0, Some(ErrSyntax));
    assert ConvertToInt64(AnyString(s)).err.value == ParseFailure(ErrSyntax, s);
    assert Escaped(s[2..]) == s[2..];
    assert Escaped(s[1..]) == s[1..];
    assert Escaped(s) == s;
  }

  /** `ConvertToInt64("123")` is 123 and `ConvertToInt64("abc")` fails. */
  lemma ConvertToInt64Examples()
    ensures ConvertToInt64(AnyString("123")) == Converted(123, None)
    ensures ConvertToInt64(AnyString("abc")).err.Some?
  {
    ParseFormatRoundTrip(123);
    assert FormatInt(123) == "123" by {
      assert Digits(123) == Digits(12) + [DigitChar(3)];
      assert Digits(12) == Digits(1) + [DigitChar(2)];
    }
    assert !IsDigit("abc"[0]);
  }
}
