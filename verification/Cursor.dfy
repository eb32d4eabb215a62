/** The opaque page token: an RFC 3339 timestamp with nanoseconds, a bar, a
    dashed UUID, all in unpadded base64url (section 5 of RFC 4648). */
module CursorCodec {
  import opened Common
  import opened Digits
  import opened Instants

  // ---------------------------------------------------------------------
  // Base64, URL alphabet, no padding
  // ---------------------------------------------------------------------

  function Symbol(i: int): char
    requires 0 <= i < 64
  {
    if i < 26 then ('A' as int + i) as char
    else if i < 52 then ('a' as int + i - 26) as char
    else if i < 62 then ('0' as int + i - 52) as char
    else if i == 62 then '-' else '_'
  }

  /** The URL-safe alphabet of section 5 of RFC 4648: A to Z, a to z, 0 to 9, and
      the two characters in which it differs from the standard one. */
  lemma SymbolsAreTheAlphabet(i: int)
    requires 0 <= i < 64
    ensures Symbol(0) == 'A' && Symbol(26) == 'a' && Symbol(52) == '0' && Symbol(62) == '-' && Symbol(63) == '_'
    ensures i !in {25, 51, 61, 62, 63} ==> Symbol(i + 1) as int == Symbol(i) as int + 1
  {
  }

  function SymbolValue(c: char): Option<sextet> {
    if 'A' <= c <= 'Z' then Some(c as int - 'A' as int)
    else if 'a' <= c <= 'z' then Some(c as int - 'a' as int + 26)
    else if '0' <= c <= '9' then Some(c as int - '0' as int + 52)
    else if c == '-' then Some(62)
    else if c == '_' then Some(63)
    else None
  }

  type sextet = x: int | 0 <= x < 64

  /** Three bytes as four sextets. */
  function Sextet1(a: byte): sextet { a / 4 }
  function Sextet2(a: byte, b: byte): sextet { a % 4 * 16 + b / 16 }
  function Sextet3(b: byte, c: byte): sextet { b % 16 * 4 + c / 64 }
  function Sextet4(c: byte): sextet { c % 64 }

  /** And back. */
  function Byte1(w: sextet, x: sextet): byte { w * 4 + x / 16 }
  function Byte2(x: sextet, y: sextet): byte { x % 16 * 16 + y / 4 }
  function Byte3(y: sextet, z: sextet): byte { y % 4 * 64 + z }

  function Encode64(bs: seq<byte>): string
    decreases |bs|
  {
    if |bs| == 0 then ""
    else if |bs| == 1 then [Symbol(Sextet1(bs[0])), Symbol(Sextet2(bs[0], 0))]
    else if |bs| == 2 then [Symbol(Sextet1(bs[0])), Symbol(Sextet2(bs[0], bs[1])), Symbol(Sextet3(bs[1], 0))]
    else
      [Symbol(Sextet1(bs[0])), Symbol(Sextet2(bs[0], bs[1])), Symbol(Sextet3(bs[1], bs[2])), Symbol(Sextet4(bs[2]))]
      + Encode64(bs[3..])
  }

  /** Leftover bits of a short last group are dropped, as Go's decoder does. */
  function Decode64(s: string): Option<seq<byte>>
    decreases |s|
  {
    if |s| == 0 then Some([])
    else if |s| == 1 || exists i :: 0 <= i < |s| && i < 4 && SymbolValue(s[i]).None? then None
    else
      var first := Byte1(SymbolValue(s[0]).value, SymbolValue(s[1]).value);
      if |s| == 2 then Some([first])
      else
        var second := Byte2(SymbolValue(s[1]).value, SymbolValue(s[2]).value);
        if |s| == 3 then Some([first, second])
        else
          match Decode64(s[4..])
          case None => None
          case Some(rest) => Some([first, second, Byte3(SymbolValue(s[2]).value, SymbolValue(s[3]).value)] + rest)
  }

  lemma SymbolRoundTrip(i: sextet)
    ensures SymbolValue(Symbol(i)) == Some(i)
  {
  }

  lemma SextetsRoundTrip(a: byte, b: byte, c: byte)
    ensures Byte1(Sextet1(a), Sextet2(a, b)) == a
    ensures Byte2(Sextet2(a, b), Sextet3(b, c)) == b
    ensures Byte3(Sextet3(b, c), Sextet4(c)) == c
  {
  }

  lemma {:induction false} Base64RoundTrip(bs: seq<byte>)
    ensures Decode64(Encode64(bs)) == Some(bs)
    decreases |bs|
  {
    hide Symbol, SymbolValue, Sextet1, Sextet2, Sextet3, Sextet4, Byte1, Byte2, Byte3;
    if bs == [] {
    } else {
      var a, b, c := bs[0], if |bs| > 1 then bs[1] else 0, if |bs| > 2 then bs[2] else 0;
      SextetsRoundTrip(a, b, c);
      SymbolRoundTrip(Sextet1(a));
      SymbolRoundTrip(Sextet2(a, b));
      SymbolRoundTrip(Sextet3(b, c));
      SymbolRoundTrip(Sextet4(c));
      if |bs| == 1 {
        assert bs == [a];
      } else if |bs| == 2 {
        assert bs == [a, b];
      } else {
        Base64RoundTrip(bs[3..]);
        assert Encode64(bs)[4..] == Encode64(bs[3..]);
        assert bs == [a, b, c] + bs[3..];
      }
    }
  }

  predicate Ascii(s: string) {
    forall i :: 0 <= i < |s| ==> s[i] < 128 as char
  }

  function ByteOf(c: char): byte
    requires c < 128 as char
  {
    c as int
  }

  function Bytes(s: string): (bs: seq<byte>)
    requires Ascii(s)
    ensures |bs| == |s|
  {
    seq(|s|, i requires 0 <= i < |s| && Ascii(s) => ByteOf(s[i]))
  }

  function Text(bs: seq<byte>): (s: string)
    ensures |s| == |bs|
  {
    seq(|bs|, i requires 0 <= i < |bs| => bs[i] as char)
  }

  lemma TextOfBytes(s: string)
    requires Ascii(s)
    ensures Text(Bytes(s)) == s
  {
  }

  // ---------------------------------------------------------------------
  // RFC 3339, UTC, nanoseconds
  // ---------------------------------------------------------------------

  function TrimZeros(s: string): (r: string)
    ensures r <= s
  {
    if s != "" && s[|s| - 1] == '0' then TrimZeros(s[..|s| - 1]) else s
  }

  function Zeros(n: nat): string {
    seq(n, i => '0')
  }

  lemma {:induction false} TrimmedZerosComeBack(s: string)
    ensures TrimZeros(s) + Zeros(|s| - |TrimZeros(s)|) == s
    decreases |s|
  {
    if s != "" && s[|s| - 1] == '0' {
      var init := s[..|s| - 1];
      TrimmedZerosComeBack(init);
      var k := |init| - |TrimZeros(init)|;
      assert Zeros(k + 1) == Zeros(k) + ['0'];
      assert s == init + ['0'];
    } else {
      assert Zeros(0) == "";
    }
  }

  /** ".999999999": trailing zeros are dropped, and the point with them. */
  function Fraction(nanos: nat): string {
    if nanos == 0 then "" else "." + TrimZeros(Padded(nanos, 9))
  }

  function FormatInstant(t: Instant): string {
    Padded(t.year, 4) + "-" + Padded(t.month, 2) + "-" + Padded(t.day, 2) + "T"
    + Padded(t.hour, 2) + ":" + Padded(t.minute, 2) + ":" + Padded(t.second, 2)
    + (Fraction(t.nanos) + "Z")
  }

  /** Digits up to nine, read as billionths. */
  function ParseFraction(s: string): Option<nat> {
    if s == "" then Some(0)
    else if s[0] == '.' && 2 <= |s| <= 10 && AllDigits(s[1..]) then
      ZerosAreDigits(10 - |s|);
      Some(Number(s[1..] + Zeros(10 - |s|)))
    else None
  }

  lemma ZerosAreDigits(n: nat)
    ensures AllDigits(Zeros(n))
  {
  }

  function ParseInstant(s: string): Option<Instant> {
    if |s| < 20 || !DigitsAt(s, 0, 4) || s[4] != '-' || !DigitsAt(s, 5, 2) || s[7] != '-' || !DigitsAt(s, 8, 2)
       || s[10] != 'T'
       || !DigitsAt(s, 11, 2) || s[13] != ':' || !DigitsAt(s, 14, 2) || s[16] != ':' || !DigitsAt(s, 17, 2)
       || s[|s| - 1] != 'Z' then None
    else
      match ParseFraction(s[19..|s| - 1])
      case None => None
      case Some(nanos) =>
        var t := Instant(Number(s[0..4]), Number(s[5..7]), Number(s[8..10]), Number(s[11..13]), Number(s[14..16]),
                         Number(s[17..19]), nanos);
        if ValidInstant(t) then Some(t) else None
  }

  lemma FractionRoundTrip(nanos: nat)
    requires nanos < 1_000_000_000
    ensures ParseFraction(Fraction(nanos)) == Some(nanos)
  {
    if nanos > 0 {
      var d := Padded(nanos, 9);
      var f := TrimZeros(d);
      assert Pow10(9) == 1_000_000_000 by { Powers(); }
      NumberOfPadded(nanos, 9);
      TrimmedZerosComeBack(d);
      assert AllDigits(f) by { assert forall c :: c in f ==> c in d; }
      assert f != "" by {
        ZerosAreZero(9);
        assert "" + Zeros(9) == Zeros(9);
      }
      assert ("." + f)[1..] == f;
    }
  }

  lemma {:induction false} ZerosAreZero(n: nat)
    ensures AllDigits(Zeros(n)) && Number(Zeros(n)) == 0
  {
    if n == 0 {
    } else {
      ZerosAreZero(n - 1);
      assert Zeros(n)[..n - 1] == Zeros(n - 1);
    }
  }

  lemma FormatLayout(t: Instant)
    ensures var s := FormatInstant(t);
            && |s| == 20 + |Fraction(t.nanos)|
            && s[0..4] == Padded(t.year, 4) && s[4] == '-' && s[5..7] == Padded(t.month, 2) && s[7] == '-'
            && s[8..10] == Padded(t.day, 2) && s[10] == 'T' && s[11..13] == Padded(t.hour, 2) && s[13] == ':'
            && s[14..16] == Padded(t.minute, 2) && s[16] == ':' && s[17..19] == Padded(t.second, 2)
            && s[19..|s| - 1] == Fraction(t.nanos) && s[|s| - 1] == 'Z'
  {
    hide Padded, Fraction;
  }

  lemma InstantRoundTrip(t: Instant)
    requires ValidInstant(t)
    ensures ParseInstant(FormatInstant(t)) == Some(t)
  {
    hide FormatInstant, Padded, Fraction, ParseFraction, Pow10, Number;
    FormatLayout(t);
    Powers();
    NumberOfPadded(t.year, 4);
    NumberOfPadded(t.month, 2);
    NumberOfPadded(t.day, 2);
    NumberOfPadded(t.hour, 2);
    NumberOfPadded(t.minute, 2);
    NumberOfPadded(t.second, 2);
    FractionRoundTrip(t.nanos);
  }

  // ---------------------------------------------------------------------
  // UUIDs
  // ---------------------------------------------------------------------

  type Uuid = bs: seq<byte> | |bs| == 16 witness [0, 0, 0, 0, 0, 0, 0, 0, 0, 0, 0, 0, 0, 0, 0, 0]

  /** Where byte i's two digits stand among the 36 characters. */
  function Offset(i: nat): nat {
    2 * i + (if i > 9 then 4 else if i > 7 then 3 else if i > 5 then 2 else if i > 3 then 1 else 0)
  }

  ghost predicate Spells(s: string, u: Uuid) {
    && |s| == 36
    && s[8] == '-' && s[13] == '-' && s[18] == '-' && s[23] == '-'
    && forall i :: 0 <= i < 16 ==> s[Offset(i)] == HexDigit(u[i] / 16) && s[Offset(i) + 1] == HexDigit(u[i] % 16)
  }

  function UuidText(u: Uuid): string {
    seq(36, k requires 0 <= k < 36 => UuidChar(u, k))
  }

  lemma UuidSpells(u: Uuid)
    ensures Spells(UuidText(u), u)
  {
    hide HexDigit;
    var s := UuidText(u);
    assert forall k :: 0 <= k < 36 ==> s[k] == UuidChar(u, k);
  }

  function UuidChar(u: Uuid, k: nat): char
    requires k < 36
  {
    if k == 8 || k == 13 || k == 18 || k == 23 then '-'
    else
      var j := if k > 23 then k - 4 else if k > 18 then k - 3 else if k > 13 then k - 2 else if k > 8 then k - 1 else k;
      if j % 2 == 0 then HexDigit(u[j / 2] / 16) else HexDigit(u[j / 2] % 16)
  }

  /** uuidString: the dashed-hex loop over a 36-byte buffer. */
  method UuidString(u: Uuid) returns (s: string)
    ensures s == UuidText(u)
  {
    var out := new char[36](_ => '-');
    var j := 0;
    for i := 0 to 16
      invariant j == Offset(i)
      invariant out.Length == 36
      invariant forall k :: 0 <= k < 36 ==> out[k] == if k < j then UuidChar(u, k) else '-'
    {
      out[j] := HexDigit(u[i] / 16);
      out[j + 1] := HexDigit(u[i] % 16);
      j := j + 2;
      if i == 3 || i == 5 || i == 7 || i == 9 {
        out[j] := '-';
        j := j + 1;
      }
    }
    s := out[..];
  }

  function ParseByte(s: string, k: nat): Option<byte>
    requires k + 1 < |s|
  {
    match (HexValue(s[k]), HexValue(s[k + 1]))
    case (Some(hi), Some(lo)) => Some(hi * 16 + lo)
    case _ => None
  }

  /** The 36-character form of uuid.Parse. */
  function ParseUuid(s: string): Option<Uuid> {
    if |s| != 36 || s[8] != '-' || s[13] != '-' || s[18] != '-' || s[23] != '-' then None
    else if exists i :: 0 <= i < 16 && ParseByte(s, Offset(i)).None? then None
    else Some(seq(16, i requires 0 <= i < 16 => ParseByte(s, Offset(i)).value))
  }

  lemma ByteRoundTrip(s: string, u: Uuid, i: nat)
    requires Spells(s, u) && i < 16
    ensures Offset(i) + 1 < 36 && ParseByte(s, Offset(i)) == Some(u[i])
  {
    hide HexDigit, HexValue;
    HexRoundTrip(u[i]);
  }

  lemma UuidRoundTrip(u: Uuid)
    ensures ParseUuid(UuidText(u)) == Some(u)
  {
    hide ParseByte, UuidChar, Offset;
    var s := UuidText(u);
    UuidSpells(u);
    forall i | 0 <= i < 16
      ensures Offset(i) + 1 < 36 && ParseByte(s, Offset(i)) == Some(u[i])
    {
      ByteRoundTrip(s, u, i);
    }
    assert ParseUuid(s).Some? && ParseUuid(s).value == u;
  }

  // ---------------------------------------------------------------------
  // The token
  // ---------------------------------------------------------------------

  function EncodeCursor(t: Instant, u: Uuid): string
    requires ValidInstant(t)
  {
    RawIsAscii(t, u);
    Encode64(Bytes(FormatInstant(t) + "|" + UuidText(u)))
  }

  function DecodeCursor(s: string): Option<(Instant, Uuid)> {
    match Decode64(s)
    case None => None
    case Some(bs) =>
      var raw := Text(bs);
      match IndexOf(raw, '|')
      case None => None
      case Some(i) =>
        match (ParseInstant(raw[..i]), ParseUuid(raw[i + 1..]))
        case (Some(t), Some(u)) => Some((t, u))
        case _ => None
  }

  lemma FormatCharacters(t: Instant)
    ensures forall c :: c in FormatInstant(t) ==> c < 128 as char && c != '|'
  {
    var f := Fraction(t.nanos);
    assert forall c :: c in f ==> c == '.' || IsDigit(c);
  }

  lemma UuidIsAscii(u: Uuid)
    ensures Ascii(UuidText(u))
  {
    var s := UuidText(u);
    forall k | 0 <= k < 36
      ensures s[k] < 128 as char
    {
    }
  }

  lemma RawIsAscii(t: Instant, u: Uuid)
    ensures Ascii(FormatInstant(t) + "|" + UuidText(u))
  {
    hide FormatInstant, UuidText;
    FormatCharacters(t);
    UuidIsAscii(u);
    var raw := FormatInstant(t) + "|" + UuidText(u);
    forall i | 0 <= i < |raw|
      ensures raw[i] < 128 as char
    {
      assert raw[i] in FormatInstant(t) || raw[i] == '|' || raw[i] in UuidText(u);
    }
  }

  /** Decoding a token gives back the instant to the nanosecond and the id, for
      every instant in years 0 to 9999 and every 16-byte id. */
  lemma CursorRoundTrip(t: Instant, u: Uuid)
    requires ValidInstant(t)
    ensures DecodeCursor(EncodeCursor(t, u)) == Some((t, u))
    ensures EncodeCursor(t, u) != ""
  {
    hide FormatInstant, UuidText, ParseInstant, ParseUuid, IndexOf, Decode64;
    var a, b := FormatInstant(t), UuidText(u);
    var raw := a + "|" + b;
    RawIsAscii(t, u);
    Base64RoundTrip(Bytes(raw));
    TextOfBytes(raw);
    FormatCharacters(t);
    IndexOfSeparator(a, '|', b);
    assert raw[..|a|] == a && raw[|a| + 1..] == b;
    InstantRoundTrip(t);
    UuidRoundTrip(u);
  }

  lemma EmptyTokenIsRejected()
    ensures DecodeCursor("") == None
  {
    assert Text([]) == "";
  }
}
