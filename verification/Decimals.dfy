/** Which timestamps pass the integer check of the webhook, told by writing numbers out in
    decimal; and headers with such timestamps.
 */
module Decimals {
  import opened Options
  import opened Text
  import opened StripeSignature

  const DIGITS: string := "0123456789"

  /** A natural number written out, without leading zeros. */
  function Decimal(n: nat): (s: string)
    ensures s != ""
  {
    if n < 10 then [DIGITS[n]] else Decimal(n / 10) + [DIGITS[n % 10]]
  }

  /** An integer written out. */
  function Rendered(n: int): string {
    if n < 0 then "-" + Decimal(-n) else Decimal(n)
  }

  function Zeros(k: nat): string {
    if k == 0 then "" else "0" + Zeros(k - 1)
  }

  lemma DigitIsDigit(d: nat)
    requires d < 10
    ensures IsDigit(DIGITS[d]) && DIGITS[d] as int - '0' as int == d
  {
  }

  lemma AppendDigit(s: string, d: nat)
    requires AllDigits(s) && d < 10
    ensures AllDigits(s + [DIGITS[d]]) && Number(s + [DIGITS[d]]) == 10 * Number(s) + d
  {
    DigitIsDigit(d);
    var t := s + [DIGITS[d]];
    assert t[..|t| - 1] == s;
  }

  lemma {:induction false} DecimalReadsBack(n: nat)
    ensures AllDigits(Decimal(n)) && Number(Decimal(n)) == n
    decreases n
  {
    if n < 10 {
      AppendDigit("", n);
      assert "" + [DIGITS[n]] == Decimal(n);
    } else {
      DecimalReadsBack(n / 10);
      AppendDigit(Decimal(n / 10), n % 10);
    }
  }

  lemma {:induction false} ZerosCountNothing(k: nat, s: string)
    requires AllDigits(s)
    ensures AllDigits(Zeros(k) + s) && Number(Zeros(k) + s) == Number(s)
    decreases k, |s|
  {
    if s != "" {
      var t := s[..|s| - 1];
      ZerosCountNothing(k, t);
      assert (Zeros(k) + s)[..|Zeros(k) + s| - 1] == Zeros(k) + t;
    } else if k > 0 {
      ZerosEndInZero(k);
      ZerosCountNothing(k - 1, "");
      assert Zeros(k) + "" == (Zeros(k - 1) + "") + [DIGITS[0]];
      AppendDigit(Zeros(k - 1) + "", 0);
    }
  }

  lemma {:induction false} ZerosEndInZero(k: nat)
    requires k > 0
    ensures Zeros(k) == Zeros(k - 1) + "0"
    decreases k
  {
    if k == 1 {
    } else {
      ZerosEndInZero(k - 1);
    }
  }

  /** Digits, at least one: leading zeros and a number written out. */
  lemma {:induction false} DigitsAreDecimal(s: string) returns (k: nat)
    requires s != "" && AllDigits(s)
    ensures s == Zeros(k) + Decimal(Number(s))
    decreases |s|
  {
    var last := |s| - 1;
    var t, d := s[..last], s[last] as int - '0' as int;
    DigitIsDigit(d);
    assert s == t + [DIGITS[d]];
    if t == "" {
      k := 0;
      assert Number(s) == d;
    } else {
      k := DigitsAreDecimal(t);
      if Number(t) == 0 {
        k := k + 1;
        ZerosEndInZero(k);
        assert Number(s) == d;
      } else {
        assert Number(s) / 10 == Number(t) && Number(s) % 10 == d;
      }
    }
  }

  predicate Sign(sign: string) {
    sign == "" || sign == "+" || sign == "-"
  }

  lemma SignedDigitsPassIff(sign: string, digits: string)
    requires Sign(sign) && digits != "" && AllDigits(digits)
    ensures IsInt64(sign + digits) <==> Number(digits) <= (if sign == "-" then 0x8000_0000_0000_0000 else 0x7fff_ffff_ffff_ffff)
  {
    var s := sign + digits;
    if sign == "" {
      assert IsDigit(digits[0]) && s == digits;
    } else {
      assert s[0] == sign[0] && s[1..] == digits;
    }
  }

  /** A sign, leading zeros and n written out pass exactly when the number fits 64 bits. */
  lemma SignedDecimalPassesIff(sign: string, k: nat, n: nat)
    requires Sign(sign)
    ensures IsInt64(sign + Zeros(k) + Decimal(n)) <==>
              n < 0x8000_0000_0000_0000 || (sign == "-" && n == 0x8000_0000_0000_0000)
  {
    PaddedDigits(k, n);
    var digits := Zeros(k) + Decimal(n);
    SignedDigitsPassIff(sign, digits);
    Grouped(sign, Zeros(k), Decimal(n));
  }

  lemma PaddedDigits(k: nat, n: nat)
    ensures var digits := Zeros(k) + Decimal(n); digits != "" && AllDigits(digits) && Number(digits) == n
  {
    DecimalReadsBack(n);
    ZerosCountNothing(k, Decimal(n));
  }

  lemma Grouped(a: string, b: string, c: string)
    ensures a + b + c == a + (b + c)
  {
  }

  /** The decimal rendering of an integer passes the check exactly when it fits 64 bits. */
  lemma RenderedPassesIff(n: int)
    ensures IsInt64(Rendered(n)) <==> -0x8000_0000_0000_0000 <= n < 0x8000_0000_0000_0000
  {
    var sign, size: nat := if n < 0 then "-" else "", if n < 0 then -n else n;
    DecimalReadsBack(size);
    SignedDigitsPassIff(sign, Decimal(size));
    assert Rendered(n) == sign + Decimal(size);
  }

  lemma StripSign(s: string) returns (sign: string, digits: string)
    requires IsInt64(s)
    ensures Sign(sign) && s == sign + digits && digits != "" && AllDigits(digits)
    ensures Number(digits) <= (if sign == "-" then 0x8000_0000_0000_0000 else 0x7fff_ffff_ffff_ffff)
  {
    if s[0] == '-' || s[0] == '+' {
      sign, digits := [s[0]], s[1..];
    } else {
      sign, digits := "", s;
    }
    assert s == sign + digits;
  }

  /** Nothing else passes: what passes is an optional sign, leading zeros and a number. */
  lemma PassesOnlyDecimals(s: string) returns (sign: string, k: nat, n: nat)
    requires IsInt64(s)
    ensures Sign(sign) && s == sign + Zeros(k) + Decimal(n)
    ensures n < 0x8000_0000_0000_0000 || (sign == "-" && n == 0x8000_0000_0000_0000)
  {
    var digits: string;
    sign, digits := StripSign(s);
    k := DigitsAreDecimal(digits);
    n := Number(digits);
    Grouped(sign, Zeros(k), Decimal(n));
  }

  // ----- Accepted headers -----

  lemma {:induction false} HexHasNo(bytes: seq<Byte>, c: char)
    requires c !in HEX
    ensures c !in HexEncode(bytes)
    decreases |bytes|
  {
    if bytes == [] {
    } else {
      HexHasNo(bytes[1..], c);
    }
  }

  lemma {:induction false} HexEndsInDigit(bytes: seq<Byte>)
    requires bytes != []
    ensures HexEncode(bytes) != "" && HexEncode(bytes)[|HexEncode(bytes)| - 1] in HEX && HexEncode(bytes)[0] in HEX
    decreases |bytes|
  {
    if |bytes| == 1 {
    } else {
      HexEndsInDigit(bytes[1..]);
    }
  }

  lemma HexIsTrimmed(bytes: seq<Byte>)
    ensures Trimmed(HexEncode(bytes)) && ',' !in HexEncode(bytes)
  {
    HexHasNo(bytes, ',');
    if bytes != [] {
      HexEndsInDigit(bytes);
      HexDigitIsNoSpace(HexEncode(bytes)[0]);
      HexDigitIsNoSpace(HexEncode(bytes)[|HexEncode(bytes)| - 1]);
    }
  }

  lemma HexDigitIsNoSpace(c: char)
    requires c in HEX
    ensures !IsSpace(c)
  {
  }

  lemma HexDigitIsLower(c: char)
    requires c in HEX
    ensures LowerHexDigit(c) == c
  {
  }

  lemma {:induction false} HexIsLower(bytes: seq<Byte>)
    ensures LowerHex(HexEncode(bytes)) == HexEncode(bytes)
    decreases |bytes|
  {
    if bytes == [] {
    } else {
      var s, hi, lo := HexEncode(bytes), HEX[bytes[0] / 16], HEX[bytes[0] % 16];
      HexIsLower(bytes[1..]);
      HexDigitIsLower(hi);
      HexDigitIsLower(lo);
      assert s == [hi, lo] + HexEncode(bytes[1..]) && s[2..] == HexEncode(bytes[1..]);
      LowerHexPair(s);
    }
  }

  lemma NumberIsTrimmed(ts: string)
    requires IsInt64(ts)
    ensures Trimmed(ts) && ',' !in ts
  {
    Int64HasNo(ts, ',');
  }

  /** The two fields of the usual header. */
  function Usual(ts: string, space: string, hex: string): seq<Field> {
    [Pair("", "t", "", "", ts, ""), Pair(space, "v1", "", "", hex, "")]
  }

  lemma UsualFields(ts: string, space: string, hex: string)
    ensures LastTimestamp(Usual(ts, space, hex)) == ts && Signatures(Usual(ts, space, hex)) == [hex]
  {
    var fields := Usual(ts, space, hex);
    assert fields[..1] == [fields[0]] && fields[1..] == [fields[1]] && fields[1..][1..] == [];
    assert fields[..1][|fields[..1]| - 1] == fields[0];
    assert Signatures(fields[1..]) == [hex];
  }

  lemma UsualHeader(ts: string, space: string, hex: string)
    ensures Render(Usual(ts, space, hex)) == "t=" + ts + "," + space + "v1=" + hex
  {
    var fields := Usual(ts, space, hex);
    assert fields[1..] == [fields[1]] && fields[1..][1..] == [];
    assert RenderFields(fields[1..]) == [RenderField(fields[1])];
    assert RenderFields(fields) == [RenderField(fields[0]), RenderField(fields[1])];
    assert RenderField(fields[0]) == "t=" + ts && RenderField(fields[1]) == space + "v1=" + hex;
    JoinTwo("t=" + ts, space + "v1=" + hex);
  }

  lemma JoinTwo(a: string, b: string)
    ensures Join([a, b], ',') == a + "," + b
  {
    assert [a, b][1..] == [b];
  }

  lemma UsualIsWellFormed(ts: string, space: string, hex: string)
    requires IsInt64(ts) && (space == "" || space == " ") && Trimmed(hex) && ',' !in hex
    ensures forall i | 0 <= i < |Usual(ts, space, hex)| :: WellFormed(Usual(ts, space, hex)[i])
  {
    NumberIsTrimmed(ts);
  }

  /** A header is accepted if its timestamp passes the check and its signature is the hex of
      the MAC of the timestamp, a dot and the payload; a space after the comma is no matter. */
  lemma SignedHeaderIsAccepted(mac: Mac, payload: string, secret: string, ts: string, space: string)
    requires IsInt64(ts) && (space == "" || space == " ")
    ensures Verify(mac, payload, "t=" + ts + "," + space + "v1=" + HexEncode(mac(secret, ts + "." + payload)), secret) == Accepted
  {
    var bytes := mac(secret, ts + "." + payload);
    var hex := HexEncode(bytes);
    HexIsTrimmed(bytes);
    HexIsLower(bytes);
    UsualIsWellFormed(ts, space, hex);
    UsualFields(ts, space, hex);
    UsualHeader(ts, space, hex);
    AcceptedIff(mac, payload, secret, Usual(ts, space, hex));
    assert SignedBy(mac, payload, secret, ts, Signatures(Usual(ts, space, hex))[0]);
  }

  /** So every integer that fits 64 bits makes an accepted header. */
  lemma RenderedHeaderIsAccepted(mac: Mac, payload: string, secret: string, n: int, space: string)
    requires -0x8000_0000_0000_0000 <= n < 0x8000_0000_0000_0000 && (space == "" || space == " ")
    ensures Verify(mac, payload, "t=" + Rendered(n) + "," + space + "v1=" + HexEncode(mac(secret, Rendered(n) + "." + payload)), secret)
            == Accepted
  {
    RenderedPassesIff(n);
    SignedHeaderIsAccepted(mac, payload, secret, Rendered(n), space);
  }

  lemma ByteDecodes(s: string, hi: nat, lo: nat, rest: seq<Byte>)
    requires |s| >= 2 && Nibble(s[0]) == Some(hi) && Nibble(s[1]) == Some(lo) && hi < 16 && lo < 16
    requires HexDecode(s[2..]) == Some(rest)
    ensures HexDecode(s) == Some([16 * hi + lo] + rest)
  {
  }

  /** Test vectors of RFC 4648, section 10, and the sixteen digits. */
  lemma HexVectors()
    ensures HexEncode([0x66, 0x6f]) == "666f"
    ensures HexDecode("666F") == Some([0x66, 0x6f])
    ensures HEX == "0123456789abcdef"
  {
    var fo: seq<Byte> := [0x66, 0x6f];
    assert fo[1..] == [0x6f] && fo[1..][1..] == [];
    assert HexEncode(fo[1..]) == "6f";
    assert "666F"[2..] == "6F" && "6F"[2..] == "";
    ByteDecodes("6F", 6, 15, []);
    assert [0x6f] + [] == [0x6f];
    ByteDecodes("666F", 6, 6, [0x6f]);
    assert [0x66] + [0x6f] == [0x66, 0x6f];
  }
}
