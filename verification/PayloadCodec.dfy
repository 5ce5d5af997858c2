/**
 * The legacy wire format of a task payload: every field is preceded by its size, written as eight
 * lower-case hexadecimal digits. A byte string is a `string` with one character per byte.
 */
module PayloadCodec {
  import opened Prelude

  const SIZE_WIDTH: nat := 8
  const SIZE_MODULUS: nat := 0x1_0000_0000
  const LONG_MAX: int := 0x7fff_ffff_ffff_ffff

  datatype TaskPayload = TaskPayload(methodName: string, arguments: string, dataDependencies: seq<string>)

  datatype DecodeError =
    | OutOfRange                    // a view was asked to skip more bytes than it has
    | TooLarge(text: string)        // the number does not fit a long
    | NotConvertible(text: string)  // the number does not extend to the end of the text

  // ---------- numbers ----------

  function HexDigit(d: nat): char
    requires d < 16
  {
    if d < 10 then ('0' as int + d) as char else ('a' as int + d - 10) as char
  }

  function Hex(n: nat, width: nat): (s: string)
    ensures |s| == width
  {
    if width == 0 then "" else Hex(n / 16, width - 1) + [HexDigit(n % 16)]
  }

  /** Writes an unsigned 32-bit number; the conversion to 32 bits is part of the source expression. */
  function IntToHex(n: nat): (s: string)
    ensures |s| == SIZE_WIDTH
  {
    Hex(n % SIZE_MODULUS, SIZE_WIDTH)
  }

  function DigitValue(c: char): (d: Option<nat>)
    ensures d.Some? ==> d.value < 16
  {
    if '0' <= c <= '9' then Some(c as int - '0' as int)
    else if 'a' <= c <= 'f' then Some(c as int - 'a' as int + 10)
    else if 'A' <= c <= 'F' then Some(c as int - 'A' as int + 10)
    else None
  }

  predicate IsSpace(c: char) {
    c == ' ' || '\t' <= c <= '\r'
  }

  /** The index of the first character at or after `i` that is not white space. */
  function SkipSpaces(s: string, i: nat): (j: nat)
    requires i <= |s|
    ensures i <= j <= |s|
    decreases |s| - i
  {
    if i < |s| && IsSpace(s[i]) then SkipSpaces(s, i + 1) else i
  }

  /** The index of the first character at or after `i` that is not a hexadecimal digit. */
  function SkipDigits(s: string, i: nat): (j: nat)
    requires i <= |s|
    ensures i <= j <= |s|
    decreases |s| - i
  {
    if i < |s| && DigitValue(s[i]).Some? then SkipDigits(s, i + 1) else i
  }

  /** The value of a run of hexadecimal digits, most significant first. */
  function HexValue(s: string): nat {
    if s == "" then 0
    else 16 * HexValue(s[..|s| - 1]) + (match DigitValue(s[|s| - 1]) case Some(d) => d case None => 0)
  }

  function SkipPrefix(s: string, i: nat): (j: nat)
    requires i <= |s|
    ensures i <= j <= |s|
  {
    if i + 2 < |s| && s[i] == '0' && (s[i + 1] == 'x' || s[i + 1] == 'X') && DigitValue(s[i + 2]).Some? then i + 2 else i
  }

  /**
   * What strtol in base 16 makes of a text: white space, a sign and a 0x prefix are optional; the
   * second component is the number of characters used, 0 when there is no digit.
   */
  function StrToL(s: string): (r: (int, nat))
    ensures r.1 <= |s|
  {
    var start := SkipSpaces(s, 0);
    var signed := start < |s| && (s[start] == '+' || s[start] == '-');
    var first := SkipPrefix(s, if signed then start + 1 else start);
    var end := SkipDigits(s, first);
    if first == end then (0, 0)
    else
      var magnitude: int := HexValue(s[first..end]);
      (if signed && s[start] == '-' then -magnitude else magnitude, end)
  }

  function HexToInt(s: string): (r: Result<nat, DecodeError>)
    ensures r.Success? ==> r.value < SIZE_MODULUS
  {
    var (value, used) := StrToL(s);
    if value < -LONG_MAX - 1 || value > LONG_MAX then Failure(TooLarge(s))
    else if used != |s| then Failure(NotConvertible(s))
    else Success(value % SIZE_MODULUS)
  }

  // ---------- encoding ----------

  function EncodeField(f: string): (s: string)
    ensures |s| == SIZE_WIDTH + |f|
  {
    IntToHex(|f|) + f
  }

  function EncodeFields(fs: seq<string>): string {
    if fs == [] then "" else EncodeField(fs[0]) + EncodeFields(fs[1..])
  }

  function Fields(p: TaskPayload): seq<string> {
    [p.methodName, p.arguments] + p.dataDependencies
  }

  lemma {:induction false} EncodeAppend(a: seq<string>, b: seq<string>)
    ensures EncodeFields(a + b) == EncodeFields(a) + EncodeFields(b)
  {
    if a == [] {
      assert a + b == b;
    } else {
      EncodeAppend(a[1..], b);
      assert (a + b)[0] == a[0] && (a + b)[1..] == a[1..] + b;
      Regroup(EncodeField(a[0]), EncodeFields(a[1..]), EncodeFields(b));
      hide EncodeField;
    }
  }

  lemma Regroup(a: string, b: string, c: string)
    ensures a + (b + c) == (a + b) + c
  {
  }

  method Serialize(p: TaskPayload) returns (s: string)
    ensures s == EncodeFields([p.methodName, p.arguments] + p.dataDependencies)
    ensures s == EncodeFields(Fields(p))
  {
    s := IntToHex(|p.methodName|) + p.methodName + IntToHex(|p.arguments|);
    s := s + p.arguments;
    assert s == EncodeFields([p.methodName, p.arguments]) by {
      EncodeAppend([p.methodName], [p.arguments]);
      assert [p.methodName, p.arguments] == [p.methodName] + [p.arguments];
      assert s == EncodeField(p.methodName) + EncodeField(p.arguments);
    }
    assert [p.methodName, p.arguments] + p.dataDependencies[..0] == [p.methodName, p.arguments];
    for i := 0 to |p.dataDependencies|
      invariant s == EncodeFields([p.methodName, p.arguments] + p.dataDependencies[..i])
    {
      var dd := p.dataDependencies[i];
      ghost var before := [p.methodName, p.arguments] + p.dataDependencies[..i];
      EncodeAppend(before, [dd]);
      assert [p.methodName, p.arguments] + p.dataDependencies[..i + 1] == before + [dd];
      s := s + IntToHex(|dd|) + dd;
    }
    assert p.dataDependencies[..|p.dataDependencies|] == p.dataDependencies;
  }

  // ---------- decoding ----------

  /** Splits a view at `offset`; the second half is what throws when the view is too short. */
  function AdvanceView(view: string, offset: nat): (r: Result<(string, string), DecodeError>)
    ensures r.Success? <==> offset <= |view|
    ensures r.Success? ==> |r.value.0| == offset && r.value.0 + r.value.1 == view
  {
    if offset <= |view| then Success((view[..offset], view[offset..])) else Failure(OutOfRange)
  }

  function ReadField(view: string): (r: Result<(string, string), DecodeError>)
    ensures r.Success? ==> |view| == SIZE_WIDTH + |r.value.0| + |r.value.1|
  {
    var (header, rest) :- AdvanceView(view, SIZE_WIDTH);
    var size :- HexToInt(header);
    AdvanceView(rest, size)
  }

  function DecodeFields(view: string): Result<seq<string>, DecodeError>
    decreases |view|
  {
    if view == "" then Success([])
    else
      var (field, rest) :- ReadField(view);
      var fields :- DecodeFields(rest);
      Success([field] + fields)
  }

  function Decode(view: string): Result<TaskPayload, DecodeError> {
    var (methodName, rest) :- ReadField(view);
    var (arguments, rest') :- ReadField(rest);
    var dataDependencies :- DecodeFields(rest');
    Success(TaskPayload(methodName, arguments, dataDependencies))
  }

  /** The fields already read, put in front of the outcome for the rest of the view. */
  function Prepend(read: seq<string>, r: Result<seq<string>, DecodeError>): Result<seq<string>, DecodeError> {
    match r
    case Success(fs) => Success(read + fs)
    case Failure(e) => Failure(e)
  }

  lemma DecodeOneMore(read: seq<string>, view: string)
    requires view != "" && ReadField(view).Success?
    ensures var (field, rest) := ReadField(view).value;
            Prepend(read, DecodeFields(view)) == Prepend(read + [field], DecodeFields(rest))
  {
    var (field, rest) := ReadField(view).value;
    if DecodeFields(rest).Success? {
      assert read + ([field] + DecodeFields(rest).value) == read + [field] + DecodeFields(rest).value;
    }
  }

  method Deserialize(serialized: string) returns (r: Result<TaskPayload, DecodeError>)
    ensures r == Decode(serialized)
  {
    var next :- ReadField(serialized);
    var methodName, view := next.0, next.1;
    next :- ReadField(view);
    var arguments;
    arguments, view := next.0, next.1;
    var dataDependencies :- ReadDependencies(view);
    r := Success(TaskPayload(methodName, arguments, dataDependencies));
  }

  /** The loop that ends Deserialize. */
  method ReadDependencies(serialized: string) returns (r: Result<seq<string>, DecodeError>)
    ensures r == DecodeFields(serialized)
  {
    var view, dataDependencies: seq<string> := serialized, [];
    assert Prepend([], DecodeFields(view)) == DecodeFields(view) by {
      assert forall fs: seq<string> :: [] + fs == fs;
    }
    while view != ""
      invariant DecodeFields(serialized) == Prepend(dataDependencies, DecodeFields(view))
      decreases |view|
    {
      var next := ReadField(view);
      if next.Failure? {
        return Failure(next.error);
      }
      DecodeOneMore(dataDependencies, view);
      dataDependencies, view := dataDependencies + [next.value.0], next.value.1;
    }
    assert dataDependencies + [] == dataDependencies;
    r := Success(dataDependencies);
  }
}
