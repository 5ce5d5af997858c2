/** What the legacy wire format promises: exact round trips in both directions and exact rejection of truncation. */
module PayloadCodecProofs {
  import opened Prelude
  import opened PayloadCodec

  // ---------- headers ----------

  predicate LowerHexDigit(c: char) {
    '0' <= c <= '9' || 'a' <= c <= 'f'
  }

  predicate LowerHex(s: string) {
    forall k :: 0 <= k < |s| ==> LowerHexDigit(s[k])
  }

  /** A header as Serialize writes it. */
  predicate Canonical(h: string) {
    |h| == SIZE_WIDTH && LowerHex(h)
  }

  function Pow16(w: nat): (p: nat)
    ensures p > 0
  {
    if w == 0 then 1 else 16 * Pow16(w - 1)
  }

  lemma SixteenToTheEight()
    ensures Pow16(SIZE_WIDTH) == SIZE_MODULUS
  {
    assert Pow16(4) == 0x1_0000;
  }

  lemma {:induction false} HexDigits(n: nat, w: nat)
    requires n < Pow16(w)
    ensures LowerHex(Hex(n, w)) && HexValue(Hex(n, w)) == n
  {
    if w > 0 {
      HexDigits(n / 16, w - 1);
      assert DigitValue(HexDigit(n % 16)) == Some(n % 16);
      assert Hex(n, w)[..w - 1] == Hex(n / 16, w - 1);
    }
  }

  lemma {:induction false} HexOfValue(h: string)
    requires LowerHex(h)
    ensures HexValue(h) < Pow16(|h|) && Hex(HexValue(h), |h|) == h
  {
    if h != "" {
      var front, last := h[..|h| - 1], h[|h| - 1];
      HexOfValue(front);
      assert LowerHexDigit(last);
      var d := DigitValue(last).value;
      assert HexDigit(d) == last;
      var v := HexValue(front);
      assert HexValue(h) == 16 * v + d;
      assert (16 * v + d) / 16 == v && (16 * v + d) % 16 == d;
      assert Hex(16 * v + d, |h|) == Hex(v, |h| - 1) + [last];
      assert front + [last] == h;
    }
  }

  lemma {:induction false} DigitsToTheEnd(s: string, i: nat)
    requires i <= |s| && forall k :: i <= k < |s| ==> DigitValue(s[k]).Some?
    ensures SkipDigits(s, i) == |s|
    decreases |s| - i
  {
    if i < |s| {
      DigitsToTheEnd(s, i + 1);
    }
  }

  lemma StrToLOfDigits(h: string)
    requires LowerHex(h) && |h| >= 2
    ensures StrToL(h) == (HexValue(h), |h|)
  {
    assert LowerHexDigit(h[0]) && LowerHexDigit(h[1]);
    assert SkipSpaces(h, 0) == 0 && SkipPrefix(h, 0) == 0;
    assert h[0..] == h && h[0..|h|] == h;
    assert forall k :: 0 <= k < |h| ==> LowerHexDigit(h[k]);
    DigitsToTheEnd(h, 0);
  }

  lemma CanonicalHeader(h: string)
    requires Canonical(h)
    ensures HexToInt(h) == Success(HexValue(h)) && IntToHex(HexValue(h)) == h
  {
    hide StrToL, LowerHex, HexValue, Pow16, Hex;
    HexOfValue(h);
    SixteenToTheEight();
    StrToLOfDigits(h);
  }

  lemma HeaderOfSize(n: nat)
    ensures Canonical(IntToHex(n)) && HexToInt(IntToHex(n)) == Success(n % SIZE_MODULUS)
  {
    SixteenToTheEight();
    HexDigits(n % SIZE_MODULUS, SIZE_WIDTH);
    CanonicalHeader(IntToHex(n));
  }

  // ---------- frames: what the decoder accepts, said without the decoder ----------

  function Join(headers: seq<string>, fields: seq<string>): string
    requires |headers| == |fields|
  {
    if headers == [] then "" else headers[0] + fields[0] + Join(headers[1..], fields[1..])
  }

  predicate HeaderFits(header: string, field: string) {
    |header| == SIZE_WIDTH && HexToInt(header) == Success(|field|)
  }

  ghost predicate Framed(view: string, headers: seq<string>, fields: seq<string>) {
    && |headers| == |fields|
    && (forall k :: 0 <= k < |fields| ==> HeaderFits(headers[k], fields[k]))
    && view == Join(headers, fields)
  }

  lemma ReadFramed(header: string, field: string, rest: string)
    requires HeaderFits(header, field)
    ensures ReadField(header + field + rest) == Success((field, rest))
  {
    var view := header + field + rest;
    assert view[..SIZE_WIDTH] == header;
    assert view[SIZE_WIDTH..] == field + rest;
    assert (field + rest)[..|field|] == field && (field + rest)[|field|..] == rest;
  }

  lemma DecodeFrame(header: string, field: string, rest: string)
    requires HeaderFits(header, field)
    ensures DecodeFields(header + field + rest) == Prepend([field], DecodeFields(rest))
  {
    ReadFramed(header, field, rest);
  }

  lemma {:induction false} DecodeFramed(headers: seq<string>, fields: seq<string>)
    requires |headers| == |fields|
    requires forall k :: 0 <= k < |fields| ==> HeaderFits(headers[k], fields[k])
    ensures DecodeFields(Join(headers, fields)) == Success(fields)
  {
    if fields != [] {
      var rest := Join(headers[1..], fields[1..]);
      DecodeFramed(headers[1..], fields[1..]);
      assert HeaderFits(headers[0], fields[0]);
      DecodeFrame(headers[0], fields[0], rest);
      assert [fields[0]] + fields[1..] == fields;
    }
  }

  lemma {:induction false} FramesOf(view: string) returns (headers: seq<string>)
    requires DecodeFields(view).Success?
    ensures Framed(view, headers, DecodeFields(view).value)
    decreases |view|
  {
    if view == "" {
      headers := [];
    } else {
      var (field, rest) := ReadField(view).value;
      var tail := FramesOf(rest);
      headers := [view[..SIZE_WIDTH]] + tail;
      assert DecodeFields(view).value[1..] == DecodeFields(rest).value;
    }
  }

  /** The decoder reads `fields` from a view exactly when the view is those fields, each behind a header for its size. */
  lemma DecodesExactlyFrames(view: string, fields: seq<string>)
    ensures DecodeFields(view) == Success(fields) <==> exists headers :: Framed(view, headers, fields)
  {
    if DecodeFields(view) == Success(fields) {
      var headers := FramesOf(view);
    }
    if headers :| Framed(view, headers, fields) {
      DecodeFramed(headers, fields);
    }
  }

  /** A payload is the first two fields and the rest; fewer than two fields are rejected. */
  lemma DecodeIsFields(view: string)
    ensures forall p :: Decode(view) == Success(p) <==> DecodeFields(view) == Success(Fields(p))
    ensures Decode(view).Success? <==> DecodeFields(view).Success? && |DecodeFields(view).value| >= 2
  {
    if ReadField(view).Success? {
      var (methodName, rest) := ReadField(view).value;
      if ReadField(rest).Success? {
        var (arguments, rest') := ReadField(rest).value;
        if DecodeFields(rest').Success? {
          assert [methodName] + ([arguments] + DecodeFields(rest').value) == Fields(Decode(view).value);
        }
      }
    }
    forall p | DecodeFields(view) == Success(Fields(p)) ensures Decode(view) == Success(p) {
      assert Fields(p)[2..] == p.dataDependencies;
      assert Fields(Decode(view).value)[2..] == Decode(view).value.dataDependencies;
    }
  }

  // ---------- round trips ----------

  predicate WellSized(fs: seq<string>) {
    forall k :: 0 <= k < |fs| ==> |fs[k]| < SIZE_MODULUS
  }

  lemma {:induction false} DecodedIsWellSized(view: string)
    requires DecodeFields(view).Success?
    ensures WellSized(DecodeFields(view).value)
    decreases |view|
  {
    if view != "" {
      DecodedIsWellSized(ReadField(view).value.1);
    }
  }

  lemma DecodeEncodedField(f: string, rest: string)
    requires |f| < SIZE_MODULUS
    ensures DecodeFields(EncodeField(f) + rest) == Prepend([f], DecodeFields(rest))
  {
    HeaderOfSize(|f|);
    hide HexToInt, IntToHex, DecodeFields, Canonical;
    DecodeFrame(IntToHex(|f|), f, rest);
  }

  lemma {:induction false} DecodeEncoded(fs: seq<string>)
    requires WellSized(fs)
    ensures DecodeFields(EncodeFields(fs)) == Success(fs)
  {
    if fs != [] {
      DecodeEncoded(fs[1..]);
      DecodeEncodedField(fs[0], EncodeFields(fs[1..]));
      assert [fs[0]] + fs[1..] == fs;
    }
  }

  /** Deserialize undoes Serialize exactly for the payloads whose fields are all shorter than 2^32 bytes. */
  lemma RoundTripExactly(p: TaskPayload)
    ensures Decode(EncodeFields(Fields(p))) == Success(p) <==> WellSized(Fields(p))
  {
    DecodeIsFields(EncodeFields(Fields(p)));
    if WellSized(Fields(p)) {
      DecodeEncoded(Fields(p));
    } else if Decode(EncodeFields(Fields(p))) == Success(p) {
      DecodedIsWellSized(EncodeFields(Fields(p)));
    }
  }

  /** Two well-sized payloads never share a serialization, whatever bytes their fields hold. */
  lemma SerializeInjective(p: TaskPayload, q: TaskPayload)
    requires WellSized(Fields(p)) && WellSized(Fields(q))
    requires EncodeFields(Fields(p)) == EncodeFields(Fields(q))
    ensures p == q
  {
    RoundTripExactly(p);
    RoundTripExactly(q);
  }

  /** Every header of an accepted view is written the way Serialize writes it. */
  ghost predicate CanonicalHeaders(view: string)
    requires DecodeFields(view).Success?
    decreases |view|
  {
    view == "" || (Canonical(view[..SIZE_WIDTH]) && CanonicalHeaders(ReadField(view).value.1))
  }

  /** The first field is the method name, the second the arguments, and the others are the dependencies. */
  lemma FieldsInOrder(view: string)
    requires Decode(view).Success?
    ensures var p := Decode(view).value; DecodeFields(view) == Success([p.methodName, p.arguments] + p.dataDependencies)
  {
    DecodeIsFields(view);
    hide Decode, DecodeFields;
  }

  lemma {:induction false} ReencodeFields(view: string)
    requires DecodeFields(view).Success?
    ensures EncodeFields(DecodeFields(view).value) == view <==> CanonicalHeaders(view)
    decreases |view|
  {
    if view != "" {
      var (field, rest) := ReadField(view).value;
      var header := view[..SIZE_WIDTH];
      ReencodeFields(rest);
      assert view == header + field + rest;
      var fields := DecodeFields(view).value;
      assert fields[1..] == DecodeFields(rest).value;
      var again := IntToHex(|field|) + field + EncodeFields(fields[1..]);
      assert again[..SIZE_WIDTH] == IntToHex(|field|) && again[SIZE_WIDTH + |field|..] == EncodeFields(fields[1..]);
      assert view[SIZE_WIDTH + |field|..] == rest;
      HeaderOfSize(|field|);
      if Canonical(header) {
        CanonicalHeader(header);
      }
    }
  }

  /** An accepted input is its own re-serialization exactly when all its headers are eight lower-case digits. */
  lemma ReserializesExactly(view: string)
    requires Decode(view).Success?
    ensures DecodeFields(view).Success?
    ensures EncodeFields(Fields(Decode(view).value)) == view <==> CanonicalHeaders(view)
  {
    DecodeIsFields(view);
    ReencodeFields(view);
  }

  // ---------- headers that are read but never written ----------

  /** A header of hexadecimal digits of either case behind `at` characters that strtol passes over. */
  ghost predicate Behind(h: string, at: nat, negative: bool) {
    && |h| == SIZE_WIDTH && at < SIZE_WIDTH && (forall k :: at <= k < SIZE_WIDTH ==> DigitValue(h[k]).Some?)
    && var start := SkipSpaces(h, 0);
       var signed := start < |h| && (h[start] == '+' || h[start] == '-');
       && SkipPrefix(h, if signed then start + 1 else start) == at
       && (negative <==> signed && h[start] == '-')
  }

  lemma LongBehind(h: string, at: nat, negative: bool)
    requires Behind(h, at, negative)
    ensures var magnitude: int := HexValue(h[at..]);
            StrToL(h) == (if negative then -magnitude else magnitude, SIZE_WIDTH)
  {
    DigitsToTheEnd(h, at);
    assert h[at..SIZE_WIDTH] == h[at..];
    hide SkipSpaces, SkipDigits, SkipPrefix, HexValue, DigitValue;
  }

  lemma ReadAs(h: string, at: nat, negative: bool)
    requires Behind(h, at, negative)
    requires HexValue(h[at..]) < SIZE_MODULUS && (negative ==> HexValue(h[at..]) == 0)
    ensures HexToInt(h) == Success(HexValue(h[at..]))
  {
    LongBehind(h, at, negative);
    hide StrToL, HexValue, Behind;
  }

  // What strtol reads, told without it.

  predicate Blank(c: char) {
    c == ' ' || 9 <= c as int <= 13
  }

  predicate HexChar(c: char) {
    '0' <= c <= '9' || 'a' <= c <= 'f' || 'A' <= c <= 'F'
  }

  /** The number that a text of hexadecimal digits of either case stands for. */
  function Magnitude(s: string): int {
    if s == "" then 0
    else
      var c := s[|s| - 1] as int;
      16 * Magnitude(s[..|s| - 1])
      + (if c <= '9' as int then c - '0' as int else if c <= 'F' as int then c - 'A' as int + 10 else c - 'a' as int + 10)
  }

  function DigitsFrom(blanks: nat, signed: bool, prefixed: bool): nat {
    blanks + (if signed then 1 else 0) + (if prefixed then 2 else 0)
  }

  /** Blanks, a sign or none, a prefix or none, and at least one digit, to the end. */
  ghost predicate Number(h: string, blanks: nat, signed: bool, prefixed: bool) {
    var at := DigitsFrom(blanks, signed, prefixed);
    && at < |h| && (forall k :: 0 <= k < blanks ==> Blank(h[k]))
    && (signed ==> h[blanks] == '+' || h[blanks] == '-')
    && (prefixed ==> h[at - 2] == '0' && (h[at - 1] == 'x' || h[at - 1] == 'X'))
    && forall k :: at <= k < |h| ==> HexChar(h[k])
  }

  lemma HexCharIsDigit(c: char)
    ensures DigitValue(c).Some? <==> HexChar(c)
    ensures IsSpace(c) <==> Blank(c)
    ensures HexChar(c) ==> !Blank(c) && c != '+' && c != '-' && c != 'x' && c != 'X'
  {
  }

  lemma {:induction false} MagnitudeIsValue(s: string)
    requires forall k :: 0 <= k < |s| ==> HexChar(s[k])
    ensures HexValue(s) == Magnitude(s) && 0 <= Magnitude(s) < Pow16(|s|)
  {
    if s != "" {
      MagnitudeIsValue(s[..|s| - 1]);
      assert HexChar(s[|s| - 1]);
    }
  }

  lemma {:induction false} SpacesEnd(h: string, i: nat, b: nat)
    requires i <= b < |h| && (forall k :: i <= k < b ==> IsSpace(h[k])) && !IsSpace(h[b])
    ensures SkipSpaces(h, i) == b
    decreases b - i
  {
    if i < b {
      SpacesEnd(h, i + 1, b);
    }
  }

  lemma {:induction false} SkippedSpaces(h: string, i: nat)
    requires i <= |h|
    ensures forall k :: i <= k < SkipSpaces(h, i) ==> IsSpace(h[k])
    decreases |h| - i
  {
    if i < |h| && IsSpace(h[i]) {
      SkippedSpaces(h, i + 1);
    }
  }

  lemma {:induction false} SkippedDigits(h: string, i: nat)
    requires i <= |h|
    ensures forall k :: i <= k < SkipDigits(h, i) ==> DigitValue(h[k]).Some?
    decreases |h| - i
  {
    if i < |h| && DigitValue(h[i]).Some? {
      SkippedDigits(h, i + 1);
    }
  }

  lemma NumberIsBehind(h: string, blanks: nat, signed: bool, prefixed: bool)
    requires |h| == SIZE_WIDTH && Number(h, blanks, signed, prefixed)
    ensures Behind(h, DigitsFrom(blanks, signed, prefixed), signed && h[blanks] == '-')
  {
    var at := DigitsFrom(blanks, signed, prefixed);
    forall c {
      HexCharIsDigit(c);
    }
    assert HexChar('0') && !Blank('+') && !Blank('-');
    hide DigitValue, IsSpace, HexChar, Blank;
    assert HexChar(h[at]);
    SpacesEnd(h, 0, blanks);
    if at + 1 < |h| {
      assert HexChar(h[at + 1]);
    }
    hide SkipSpaces;
  }

  lemma BehindIsNumber(h: string)
    requires |h| == SIZE_WIDTH && HexToInt(h).Success?
    ensures exists blanks: nat, signed, prefixed :: Number(h, blanks, signed, prefixed)
  {
    var start := SkipSpaces(h, 0);
    var signed := start < |h| && (h[start] == '+' || h[start] == '-');
    var first := SkipPrefix(h, if signed then start + 1 else start);
    SkippedSpaces(h, 0);
    SkippedDigits(h, first);
    forall c {
      HexCharIsDigit(c);
    }
    hide DigitValue, IsSpace, HexChar, Blank, SkipSpaces, SkipDigits, HexValue;
    var prefixed := first != if signed then start + 1 else start;
    assert Number(h, start, signed, prefixed);
  }

  /** A header is read if and only if it is blanks, a sign or none, a prefix or none, and hexadecimal digits to the end. */
  lemma HeaderReadExactly(h: string)
    requires |h| == 8
    ensures HexToInt(h).Success? <==> exists blanks: nat, signed, prefixed :: Number(h, blanks, signed, prefixed)
  {
    if HexToInt(h).Success? {
      BehindIsNumber(h);
    }
    hide HexToInt, Number;
    if blanks: nat, signed, prefixed :| Number(h, blanks, signed, prefixed) {
      SizeReadExactly(h, blanks, signed, prefixed);
    }
  }

  lemma {:induction false} PowGrows(m: nat, n: nat)
    requires m <= n
    ensures Pow16(m) <= Pow16(n)
  {
    if m < n {
      PowGrows(m, n - 1);
    }
  }

  /** The size is the number that the digits stand for, and a negative one counts down from 2^32. */
  lemma SizeReadExactly(h: string, blanks: nat, signed: bool, prefixed: bool)
    requires |h| == 8 && Number(h, blanks, signed, prefixed)
    ensures var n := Magnitude(h[DigitsFrom(blanks, signed, prefixed)..]);
            HexToInt(h) == Success(if signed && h[blanks] == '-' && n > 0 then 0x1_0000_0000 - n else n)
  {
    var at := DigitsFrom(blanks, signed, prefixed);
    NumberIsBehind(h, blanks, signed, prefixed);
    LongBehind(h, at, signed && h[blanks] == '-');
    MagnitudeIsValue(h[at..]);
    PowGrows(|h[at..]|, 8);
    SixteenToTheEight();
    hide StrToL, HexValue, Behind, Number, Magnitude, Pow16, SkipSpaces;
    LongIsRead(h, Magnitude(h[at..]), signed && h[blanks] == '-');
  }

  lemma LongIsRead(h: string, n: nat, negative: bool)
    requires n < 0x1_0000_0000 && StrToL(h) == (if negative then -(n as int) else n, |h|)
    ensures HexToInt(h) == Success(if negative && n > 0 then 0x1_0000_0000 - n else n)
  {
    hide StrToL;
  }

  lemma SignOrBlankBehind(c: char, zeros: string)
    requires c == '+' || c == '-' || IsSpace(c)
    requires |zeros| == 7 && LowerHex(zeros) && HexValue(zeros) == 0
    ensures HeaderFits([c] + zeros, "") && !Canonical([c] + zeros)
  {
    var h := [c] + zeros;
    hide HexValue, HexToInt;
    assert h[1..] == zeros;
    ZeroDigits(h, 1);
    assert SkipSpaces(h, 1) == 1;
    ReadAs(h, 1, c == '-');
    assert !LowerHexDigit(h[0]);
  }

  /** Seven zeros are read alike behind a sign and behind a blank. */
  lemma SignOrBlank(c: char)
    requires c == '+' || c == '-' || IsSpace(c)
    ensures HeaderFits([c] + Hex(0, 7), "") && !Canonical([c] + Hex(0, 7))
  {
    HexDigits(0, 7);
    SignOrBlankBehind(c, Hex(0, 7));
    hide HeaderFits, Canonical;
  }

  lemma ZeroDigits(h: string, at: nat)
    requires at <= |h| && LowerHex(h[at..])
    ensures forall k :: at <= k < |h| ==> LowerHexDigit(h[k]) && DigitValue(h[k]).Some? && !IsSpace(h[k])
  {
    forall k | at <= k < |h| ensures LowerHexDigit(h[k]) {
      assert h[k] == h[at..][k - at];
    }
  }

  lemma PrefixedBehind(x: char, zeros: string)
    requires x == 'x' || x == 'X'
    requires |zeros| == 6 && LowerHex(zeros) && HexValue(zeros) == 0
    ensures HeaderFits(['0', x] + zeros, "") && !Canonical(['0', x] + zeros)
  {
    var h := ['0', x] + zeros;
    hide HexValue, HexToInt;
    assert h[2..] == zeros;
    ZeroDigits(h, 2);
    assert SkipSpaces(h, 0) == 0 && SkipPrefix(h, 0) == 2;
    ReadAs(h, 2, false);
    assert !LowerHexDigit(h[1]);
  }

  /** Six zeros are read alike behind a prefix. */
  lemma Prefixed(x: char)
    requires x == 'x' || x == 'X'
    ensures HeaderFits(['0', x] + Hex(0, 6), "") && !Canonical(['0', x] + Hex(0, 6))
  {
    HexDigits(0, 6);
    PrefixedBehind(x, Hex(0, 6));
    hide HeaderFits, Canonical;
  }

  lemma LastDigit(front: string, d: char)
    requires DigitValue(d).Some?
    ensures HexValue(front + [d]) == 16 * HexValue(front) + DigitValue(d).value
  {
    assert (front + [d])[..|front|] == front;
  }

  lemma UpperCaseBehind(d: char, zeros: string, field: string)
    requires 'A' <= d <= 'F' && |field| == d as int - 'A' as int + 10
    requires |zeros| == 7 && LowerHex(zeros) && HexValue(zeros) == 0
    ensures HeaderFits(zeros + [d], field) && !Canonical(zeros + [d])
  {
    var h := zeros + [d];
    LastDigit(zeros, d);
    hide HexValue, HexToInt;
    assert h[..7] == zeros && h[0..] == h;
    assert LowerHexDigit(h[..7][0]) && LowerHexDigit(h[..7][1]);
    assert SkipSpaces(h, 0) == 0 && SkipPrefix(h, 0) == 0;
    hide SkipSpaces, SkipPrefix;
    forall k | 0 <= k < 8 ensures DigitValue(h[k]).Some? {
      assert k < 7 ==> LowerHexDigit(h[..7][k]);
    }
    ReadAs(h, 0, false);
    assert !LowerHexDigit(h[7]);
  }

  /** An upper-case digit counts as much as a lower-case one. */
  lemma UpperCase(d: char, field: string)
    requires 'A' <= d <= 'F' && |field| == d as int - 'A' as int + 10
    ensures HeaderFits(Hex(0, 7) + [d], field) && !Canonical(Hex(0, 7) + [d])
  {
    HexDigits(0, 7);
    UpperCaseBehind(d, Hex(0, 7), field);
    hide HeaderFits, Canonical;
  }

  lemma NothingDecoded()
    ensures DecodeFields("") == Success([])
  {
  }

  /**
   * Acceptance alone is not canonical: any header that strtol reads as the size of its field, and that is not eight
   * lower-case digits, makes an input that is accepted and re-encodes differently.
   */
  lemma AcceptedButNotCanonical(header: string, field: string)
    requires HeaderFits(header, field) && !Canonical(header)
    ensures var view, p := header + field + IntToHex(0), TaskPayload(field, "", []);
            Decode(view) == Success(p) && EncodeFields(Fields(p)) != view
  {
    var view := header + field + IntToHex(0);
    DecodeBehind(header, field);
    assert view == header + (field + IntToHex(0));
    assert |header| == SIZE_WIDTH;
    hide Decode, HexToInt, EncodeFields, IntToHex, Fields, HeaderFits, Canonical;
    ReserializesExactly(view);
    NotCanonical(header, field + IntToHex(0));
    hide CanonicalHeaders;
  }

  lemma FieldsBehind(header: string, field: string, zero: string)
    requires HeaderFits(header, field) && HeaderFits(zero, "")
    ensures DecodeFields(header + field + zero) == Success([field, ""])
  {
    NothingDecoded();
    hide DecodeFields, HeaderFits;
    DecodeFrame(zero, "", "");
    DecodeFrame(header, field, zero);
    assert zero + "" + "" == zero;
    assert [field] + ([""] + []) == [field, ""];
  }

  lemma DecodeBehind(header: string, field: string)
    requires HeaderFits(header, field)
    ensures Decode(header + field + IntToHex(0)) == Success(TaskPayload(field, "", []))
  {
    HeaderOfSize(0);
    FieldsBehind(header, field, IntToHex(0));
    hide Decode, DecodeFields, HexToInt, IntToHex, HeaderFits;
    DecodeIsFields(header + field + IntToHex(0));
    assert Fields(TaskPayload(field, "", [])) == [field, ""];
    hide Fields;
  }

  lemma NotCanonical(header: string, rest: string)
    requires DecodeFields(header + rest).Success? && |header| == SIZE_WIDTH && !Canonical(header)
    ensures !CanonicalHeaders(header + rest)
  {
    assert (header + rest)[..SIZE_WIDTH] == header;
    hide Canonical;
  }

  /** And there are such headers of every kind: signs, blanks, prefixes, upper-case digits. */
  lemma ReadButNotWritten(c: char, x: char, d: char, field: string)
    requires c == '+' || c == '-' || IsSpace(c)
    requires x == 'x' || x == 'X'
    requires 'A' <= d <= 'F' && |field| == d as int - 'A' as int + 10
    ensures HeaderFits([c] + Hex(0, 7), "") && !Canonical([c] + Hex(0, 7))
    ensures HeaderFits(['0', x] + Hex(0, 6), "") && !Canonical(['0', x] + Hex(0, 6))
    ensures HeaderFits(Hex(0, 7) + [d], field) && !Canonical(Hex(0, 7) + [d])
  {
    SignOrBlank(c);
    Prefixed(x);
    UpperCase(d, field);
  }

  // ---------- truncation ----------

  /** The number of bytes taken by the first `m` fields and their headers. */
  function FrameEnd(fs: seq<string>, m: nat): nat
    requires m <= |fs|
  {
    if m == 0 then 0 else SIZE_WIDTH + |fs[0]| + FrameEnd(fs[1..], m - 1)
  }

  lemma FirstFrame(fs: seq<string>)
    requires fs != []
    ensures FrameEnd(fs, 0) == 0 && forall m: nat :: 0 < m <= |fs| ==> FrameEnd(fs, m) >= SIZE_WIDTH + |fs[0]|
  {
  }

  lemma ShortViewRejected(header: string, field: string, cut: string)
    requires HeaderFits(header, field) && cut != "" && |cut| < SIZE_WIDTH + |field|
    requires cut <= header + field
    ensures DecodeFields(cut) == Failure(OutOfRange)
  {
    if |cut| >= SIZE_WIDTH {
      assert cut[..SIZE_WIDTH] == header;
    }
  }

  lemma FirstRead(view: string) returns (header: string, field: string, rest: string)
    requires ReadField(view).Success?
    ensures HeaderFits(header, field) && view == header + field + rest && |rest| < |view|
  {
    hide HexToInt;
    var read := ReadField(view).value;
    header, field, rest := view[..SIZE_WIDTH], read.0, read.1;
    assert view[SIZE_WIDTH..] == field + rest;
  }

  /** The first frame of an accepted view. */
  lemma FirstOf(view: string) returns (header: string, field: string, rest: string)
    requires DecodeFields(view).Success? && view != ""
    ensures HeaderFits(header, field) && view == header + field + rest && |header| == SIZE_WIDTH && |rest| < |view|
    ensures DecodeFields(rest).Success? && DecodeFields(view).value == [field] + DecodeFields(rest).value
  {
    header, field, rest := FirstRead(view);
    DecodeFrame(header, field, rest);
    hide ReadField;
  }

  lemma CutFrame(view: string, header: string, field: string, rest: string, k: nat)
    requires |header| == SIZE_WIDTH && view == header + field + rest && k <= |view|
    ensures |view| == SIZE_WIDTH + |field| + |rest|
    ensures var used := SIZE_WIDTH + |field|;
            if k < used then view[..k] <= header + field else view[..k] == header + field + rest[..k - used]
  {
    var frame := header + field;
    assert |frame| == SIZE_WIDTH + |field|;
    if k < |frame| {
      assert view[..k] == frame[..k];
    }
  }

  /** What comes of the first `k` bytes of a view with those fields. */
  ghost predicate Cut(fs: seq<string>, r: Result<seq<string>, DecodeError>, k: nat) {
    && (forall m :: 0 <= m <= |fs| && FrameEnd(fs, m) == k ==> r == Success(fs[..m]))
    && (r.Success? ==> exists m :: 0 <= m <= |fs| && FrameEnd(fs, m) == k)
    && (r.Failure? ==> r == Failure(OutOfRange))
  }

  lemma CutNothing(fs: seq<string>)
    ensures Cut(fs, Success([]), 0)
  {
    assert FrameEnd(fs, 0) == 0;
    forall m | 0 <= m <= |fs| && FrameEnd(fs, m) == 0 ensures fs[..m] == [] {
    }
  }

  lemma CutInside(field: string, tail: seq<string>, k: nat)
    requires 0 < k < SIZE_WIDTH + |field|
    ensures Cut([field] + tail, Failure(OutOfRange), k)
  {
    FirstFrame([field] + tail);
    hide FrameEnd;
  }

  lemma {:induction false} TruncateFields(view: string, k: nat)
    requires DecodeFields(view).Success? && k <= |view|
    ensures Cut(DecodeFields(view).value, DecodeFields(view[..k]), k)
    decreases |view|
  {
    hide DecodeFields, Cut;
    if k == 0 {
      NothingDecoded();
      assert view[..0] == "";
      CutNothing(DecodeFields(view).value);
    } else {
      var field, rest := CutFirst(view, k);
      var used, tail := SIZE_WIDTH + |field|, DecodeFields(rest).value;
      if k < used {
        CutInside(field, tail, k);
      } else {
        TruncateFields(rest, k - used);
        CutBehind(DecodeFields(rest[..k - used]), field, tail, k - used);
      }
    }
  }

  /** A cut inside the first frame is rejected; any other is the frame and a cut of the rest. */
  lemma CutFirst(view: string, k: nat) returns (field: string, rest: string)
    requires DecodeFields(view).Success? && 0 < k <= |view|
    ensures |view| == SIZE_WIDTH + |field| + |rest|
    ensures DecodeFields(rest).Success? && DecodeFields(view).value == [field] + DecodeFields(rest).value
    ensures var used := SIZE_WIDTH + |field|;
            if k < used then DecodeFields(view[..k]) == Failure(OutOfRange)
            else DecodeFields(view[..k]) == Prepend([field], DecodeFields(rest[..k - used]))
  {
    var header;
    header, field, rest := FirstOf(view);
    hide DecodeFields, HeaderFits;
    CutFrame(view, header, field, rest, k);
    if k < SIZE_WIDTH + |field| {
      ShortViewRejected(header, field, view[..k]);
    } else {
      DecodeFrame(header, field, rest[..k - SIZE_WIDTH - |field|]);
    }
  }

  /** A cut behind the first field is a cut of the rest. */
  lemma CutBehind(r: Result<seq<string>, DecodeError>, field: string, tail: seq<string>, k: nat)
    requires Cut(tail, r, k)
    ensures Cut([field] + tail, Prepend([field], r), SIZE_WIDTH + |field| + k)
  {
    var fs, end := [field] + tail, SIZE_WIDTH + |field| + k;
    assert fs[1..] == tail;
    forall m | 0 <= m <= |fs| && FrameEnd(fs, m) == end ensures Prepend([field], r) == Success(fs[..m]) {
      assert FrameEnd(tail, m - 1) == k;
      assert [field] + tail[..m - 1] == fs[..m];
    }
    if r.Success? {
      var m :| 0 <= m <= |tail| && FrameEnd(tail, m) == k;
      assert FrameEnd(fs, m + 1) == end;
    }
  }

  lemma NoFieldRead()
    ensures ReadField("") == Failure(OutOfRange) && DecodeFields("") == Success([])
  {
  }

  /** A payload that cannot be decoded has fields that cannot, or too few of them. */
  lemma FailsAlike(view: string)
    ensures DecodeFields(view).Failure? ==> Decode(view) == Failure(DecodeFields(view).error)
    ensures DecodeFields(view).Success? && |DecodeFields(view).value| < 2 ==> Decode(view) == Failure(OutOfRange)
  {
    NoFieldRead();
    if view != "" && ReadField(view).Success? {
      var rest := ReadField(view).value.1;
      hide ReadField;
      if rest != "" && ReadField(rest).Success? {
        assert DecodeFields(rest).Failure? ==> DecodeFields(ReadField(rest).value.1).Failure?;
      }
    }
    hide ReadField;
  }

  /** A prefix of an accepted input is accepted exactly when it ends behind a whole field, the second or a later one. */
  lemma TruncationRejectedExactly(view: string, k: nat)
    requires Decode(view).Success? && k <= |view|
    ensures var fs := Fields(Decode(view).value);
            && (Decode(view[..k]).Success? <==> exists m :: 2 <= m <= |fs| && FrameEnd(fs, m) == k)
            && (Decode(view[..k]).Failure? ==> Decode(view[..k]) == Failure(OutOfRange))
  {
    var fs := Fields(Decode(view).value);
    DecodeIsFields(view);
    DecodeIsFields(view[..k]);
    FailsAlike(view[..k]);
    TruncateFields(view, k);
    hide Decode, DecodeFields, Fields, FrameEnd;
    assert DecodeFields(view) == Success(fs);
    CutIsAccepted(fs, DecodeFields(view[..k]), k);
  }

  lemma CutIsAccepted(fs: seq<string>, r: Result<seq<string>, DecodeError>, k: nat)
    requires Cut(fs, r, k)
    ensures r.Success? && |r.value| >= 2 <==> exists m :: 2 <= m <= |fs| && FrameEnd(fs, m) == k
    ensures r.Failure? ==> r == Failure(OutOfRange)
  {
    if r.Success? {
      var m :| 0 <= m <= |fs| && FrameEnd(fs, m) == k;
      assert r.value == fs[..m];
      assert |r.value| >= 2 ==> 2 <= m <= |fs| && FrameEnd(fs, m) == k;
    }
    forall m | 2 <= m <= |fs| && FrameEnd(fs, m) == k ensures r.Success? && |r.value| >= 2 {
      assert r == Success(fs[..m]);
    }
  }

  // ---------- refusal ----------

  lemma {:induction false} HexValueBound(s: string)
    ensures HexValue(s) < Pow16(|s|)
  {
    if s != "" {
      HexValueBound(s[..|s| - 1]);
    }
  }

  /** Eight characters are never a number that is too large. */
  lemma HeaderRefusedFor(h: string)
    requires |h| == 8 && HexToInt(h).Failure?
    ensures HexToInt(h) == Failure(NotConvertible(h))
  {
    var start := SkipSpaces(h, 0);
    var first := SkipPrefix(h, if start < |h| && (h[start] == '+' || h[start] == '-') then start + 1 else start);
    var digits := h[first..SkipDigits(h, first)];
    HexValueBound(digits);
    PowGrows(|digits|, 8);
    SixteenToTheEight();
    hide HexValue, SkipSpaces, SkipDigits, SkipPrefix, Pow16;
  }

  /** What is wrong with an input at a place: no header, one that is no number, or a field that is not all there. */
  ghost predicate BadFrame(rest: string, e: DecodeError) {
    if |rest| < 8 then e == OutOfRange
    else if HexToInt(rest[..8]).Failure? then e == NotConvertible(rest[..8])
    else |rest| < 8 + HexToInt(rest[..8]).value && e == OutOfRange
  }

  lemma ReadRefusedFor(view: string, e: DecodeError)
    ensures ReadField(view) == Failure(e) <==> BadFrame(view, e)
  {
    if |view| >= 8 && HexToInt(view[..8]).Failure? {
      HeaderRefusedFor(view[..8]);
    }
    hide HexToInt;
  }

  lemma {:induction false} FieldsRefused(view: string) returns (good: string, rest: string)
    requires DecodeFields(view).Failure?
    ensures view == good + rest && DecodeFields(good).Success? && rest != "" && BadFrame(rest, DecodeFields(view).error)
    decreases |view|
  {
    hide HexToInt, BadFrame, HeaderFits;
    if ReadField(view).Failure? {
      ReadRefusedFor(view, DecodeFields(view).error);
      good, rest := "", view;
    } else {
      var header, field, tail := FirstRead(view);
      DecodeFrame(header, field, tail);
      hide DecodeFields, ReadField;
      good, rest := FieldsRefused(tail);
      DecodeFrame(header, field, good);
      assert header + field + (good + rest) == header + field + good + rest;
      good := header + field + good;
    }
  }

  lemma {:induction false} RefusedBehind(good: string, rest: string, e: DecodeError)
    requires DecodeFields(good).Success? && rest != "" && BadFrame(rest, e)
    ensures DecodeFields(good + rest) == Failure(e)
    decreases |good|
  {
    hide HexToInt, BadFrame, HeaderFits;
    if good == "" {
      assert good + rest == rest;
      ReadRefusedFor(rest, e);
      hide ReadField;
    } else {
      hide ReadField, DecodeFields;
      var header, field, tail := FirstOf(good);
      RefusedBehind(tail, rest, e);
      DecodeFrame(header, field, tail + rest);
      assert good + rest == header + field + (tail + rest);
    }
  }

  /**
   * An input is refused if and only if it has fewer than two fields, or something other than a field behind those it has; the
   * error is that of the first such place.
   */
  lemma RefusedExactly(view: string, e: DecodeError)
    ensures Decode(view) == Failure(e) <==>
              || (DecodeFields(view).Success? && |DecodeFields(view).value| < 2 && e == OutOfRange)
              || exists good, rest :: view == good + rest && DecodeFields(good).Success? && rest != "" && BadFrame(rest, e)
  {
    DecodeIsFields(view);
    FailsAlike(view);
    hide Decode, DecodeFields, BadFrame;
    if DecodeFields(view).Failure? {
      var good, rest := FieldsRefused(view);
    }
    if good, rest :| view == good + rest && DecodeFields(good).Success? && rest != "" && BadFrame(rest, e) {
      RefusedBehind(good, rest, e);
    }
  }
}
